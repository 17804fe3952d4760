/** The transaction runner: a call that is already inside a transaction joins it, and the outermost
    call alone begins, commits and rolls back. */
module Runner {
  import opened Domain

  // ---------------------------------------------------------------- errors

  /** Go errors as trees: a wrapped error, a join of two, a PostgreSQL error with its SQLSTATE, the
      sentinel ErrTransactionAborted, and the runner's own. */
  datatype Failure =
    | AppFailure(code: int)
    | PgFailure(sqlState: string)
    | RetryAborted
    | Wrap(cause: Failure)
    | Join(first: Failure, second: Failure)
    | BeginFailed
    | CommitFailed
    | RollbackFailed

  /** errors.As: the first PostgreSQL error found, outermost first and left to right. */
  function AsPg(e: Failure): Option<string> {
    match e
    case PgFailure(s) => Some(s)
    case Wrap(cause) => AsPg(cause)
    case Join(a, b) => if AsPg(a).Some? then AsPg(a) else AsPg(b)
    case _ => None
  }

  /** The SQLSTATEs in an error, from the outside in and left to right. */
  ghost function SqlStates(e: Failure): seq<string> {
    match e
    case PgFailure(s) => [s]
    case Wrap(cause) => SqlStates(cause)
    case Join(a, b) => SqlStates(a) + SqlStates(b)
    case _ => []
  }

  /** errors.As finds the first of them, if there is any. */
  lemma {:induction false} AsPgFindsFirst(e: Failure)
    ensures AsPg(e) == if SqlStates(e) == [] then None else Some(SqlStates(e)[0])
    ensures forall s :: s in SqlStates(e) <==> Carries(e, PgFailure(s))
  {
    match e
    case Wrap(cause) => AsPgFindsFirst(cause);
    case Join(a, b) =>
      AsPgFindsFirst(a);
      AsPgFindsFirst(b);
    case _ =>
  }

  /** errors.Is for an error that carries no tree of its own. */
  predicate Carries(e: Failure, leaf: Failure) {
    e == leaf ||
    match e
    case Wrap(cause) => Carries(cause, leaf)
    case Join(a, b) => Carries(a, leaf) || Carries(b, leaf)
    case _ => false
  }

  /** isTransactionAbort. */
  predicate IsTransactionAbort(e: Failure) { AsPg(e) == Some("40001") || AsPg(e) == Some("40P01") }

  // ---------------------------------------------------------------- callbacks

  type Op = int

  /** How PostgreSQL answers a statement of a transaction in good order: it is executed, it is executed
      but the repository finds that it changed nothing and reports that, or it fails. A statement that
      fails aborts the transaction it belongs to. */
  datatype Answer = Executed | NothingDone | Failed

  /** What a callback does: it returns, makes a repository call, or makes a nested call of the runner;
      what it does next depends on what it was answered. A repository call uses the context the callback
      was handed, or another one that carries no transaction; refused is what follows when its
      transaction has been aborted before. */
  datatype Fn =
    | Return(error: Option<Failure>)
    | Call(op: Op, handed: bool, answer: Answer, next: Fn, refused: Fn)
    | Nest(inner: Fn, onNil: Fn, onError: Fn)

  /** What a callback adds to its transaction, what it writes around it, whether the transaction is
      aborted afterwards, and its error. */
  datatype Ran = Ran(joined: seq<Op>, detached: seq<Op>, aborted: bool, error: Option<Failure>)

  /** What one run and then another add up to. */
  function Chain(a: Ran, b: Ran): Ran { Ran(a.joined + b.joined, a.detached + b.detached, b.aborted, b.error) }

  /** One call. PostgreSQL refuses every statement of an aborted transaction. */
  function One(op: Op, handed: bool, answer: Answer, aborted: bool): Ran {
    if !handed then Ran([], if answer == Executed then [op] else [], aborted, None)
    else if aborted then Ran([], [], true, None)
    else Ran(if answer == Executed then [op] else [], [], answer == Failed, None)
  }

  /** What a callback does with a transaction that is, or is not, aborted when it starts. */
  function Meaning(fn: Fn, aborted: bool): Ran {
    match fn
    case Return(e) => Ran([], [], aborted, e)
    case Call(op, handed, answer, next, refused) =>
      var one := One(op, handed, answer, aborted);
      Chain(one, if handed && aborted then Meaning(refused, true) else Meaning(next, one.aborted))
    case Nest(inner, onNil, onError) =>
      var nested := Meaning(inner, aborted);
      Chain(nested, Meaning(if nested.error.None? then onNil else onError, nested.aborted))
  }

  // ---------------------------------------------------------------- the runner

  class Tx {
    var writes: seq<Op>
    var aborted: bool

    constructor ()
      ensures writes == [] && !aborted
    {
      writes, aborted := [], false;
    }
  }

  /** The pool, with the writes that are committed and the number of transactions begun. */
  class Pool {
    var committed: seq<Op>
    var begun: nat

    constructor ()
      ensures committed == [] && begun == 0
    {
      committed, begun := [], 0;
    }
  }

  /** How the database answers BEGIN, COMMIT and ROLLBACK. */
  datatype Outcomes = Outcomes(begins: bool, commits: bool, rollsBack: bool)

  /** The error that a failed callback leaves. */
  function Reported(e: Failure, o: Outcomes): Failure {
    var err := if IsTransactionAbort(e) then Join(e, RetryAborted) else e;
    if o.rollsBack then err else Join(err, Wrap(RollbackFailed))
  }

  /** Executor: the transaction of the context if it carries one, the pool otherwise. */
  method Execute(ctx: Option<Tx>, pool: Pool, op: Op, answer: Answer) returns (refused: bool)
    modifies pool, if ctx.Some? then {ctx.value} else {}
    ensures var one := One(op, ctx.Some?, answer, ctx.Some? && old(ctx.value.aborted));
            pool.committed == old(pool.committed) + one.detached &&
            (ctx.Some? ==> ctx.value.writes == old(ctx.value.writes) + one.joined && ctx.value.aborted == one.aborted)
    ensures refused == (ctx.Some? && old(ctx.value.aborted)) && pool.begun == old(pool.begun)
  {
    refused := false;
    if ctx.Some? {
      if ctx.value.aborted {
        refused := true;
      } else if answer == Executed {
        ctx.value.writes := ctx.value.writes + [op];
      } else if answer == Failed {
        ctx.value.aborted := true;
      }
    } else if answer == Executed {
      pool.committed := pool.committed + [op];
    }
  }

  lemma Regroup(a: seq<Op>, b: seq<Op>, c: seq<Op>)
    ensures (a + b) + c == a + (b + c)
  {
  }

  /** A callback, run with a context that carries tx. */
  method Invoke(fn: Fn, tx: Tx, pool: Pool, o: Outcomes) returns (err: Option<Failure>)
    modifies pool, tx
    ensures var ran := Meaning(fn, old(tx.aborted));
            tx.writes == old(tx.writes) + ran.joined && tx.aborted == ran.aborted &&
            pool.committed == old(pool.committed) + ran.detached && err == ran.error
    ensures pool.begun == old(pool.begun)
    decreases fn, 0
  {
    match fn
    case Return(e) =>
      err := e;
    case Call(op, handed, answer, next, refused) =>
      ghost var one := One(op, handed, answer, tx.aborted);
      ghost var rest := if handed && tx.aborted then Meaning(refused, true) else Meaning(next, one.aborted);
      var refusal := Execute(if handed then Some(tx) else None, pool, op, answer);
      if refusal {
        err := Invoke(refused, tx, pool, o);
      } else {
        err := Invoke(next, tx, pool, o);
      }
      Regroup(old(tx.writes), one.joined, rest.joined);
      Regroup(old(pool.committed), one.detached, rest.detached);
    case Nest(inner, onNil, onError) =>
      ghost var first := Meaning(inner, tx.aborted);
      ghost var rest := Meaning(if first.error.None? then onNil else onError, first.aborted);
      var nested := RunInTransaction(Some(tx), pool, inner, o);
      if nested.None? {
        err := Invoke(onNil, tx, pool, o);
      } else {
        err := Invoke(onError, tx, pool, o);
      }
      Regroup(old(tx.writes), first.joined, rest.joined);
      Regroup(old(pool.committed), first.detached, rest.detached);
  }

  /** COMMIT: PostgreSQL answers the commit of an aborted transaction by rolling it back, which the
      driver reports as an error. */
  predicate CommitSucceeds(ran: Ran, o: Outcomes) { o.commits && !ran.aborted }

  /** What is left of the transaction of an outermost call. */
  function Kept(ran: Ran, o: Outcomes): seq<Op> { if ran.error.None? && CommitSucceeds(ran, o) then ran.joined else [] }

  /** RunInTransaction. A nested call begins, commits and rolls back nothing; the outermost one begins
      a single transaction and keeps all of its effects exactly when the callback returns nil and the
      commit succeeds. Writes made around the transaction are kept either way. */
  method RunInTransaction(ctx: Option<Tx>, pool: Pool, fn: Fn, o: Outcomes) returns (err: Option<Failure>)
    modifies pool, if ctx.Some? then {ctx.value} else {}
    ensures ctx.Some? ==>
              var ran := Meaning(fn, old(ctx.value.aborted));
              ctx.value.writes == old(ctx.value.writes) + ran.joined && ctx.value.aborted == ran.aborted &&
              pool.committed == old(pool.committed) + ran.detached && pool.begun == old(pool.begun) && err == ran.error
    ensures ctx.None? && !o.begins ==>
              pool.committed == old(pool.committed) && pool.begun == old(pool.begun) && err == Some(Wrap(BeginFailed))
    ensures ctx.None? && o.begins ==>
              var ran := Meaning(fn, false);
              pool.begun == old(pool.begun) + 1 && pool.committed == old(pool.committed) + ran.detached + Kept(ran, o) &&
              err == if ran.error.Some? then Some(Reported(ran.error.value, o))
                     else if CommitSucceeds(ran, o) then None else Some(Wrap(CommitFailed))
    ensures ctx.None? && err.Some? ==>
              var failed := if o.begins then Meaning(fn, false).error else None;
              (Carries(err.value, RetryAborted) <==>
                 failed.Some? && (AsPg(failed.value) in {Some("40001"), Some("40P01")} || Carries(failed.value, RetryAborted)))
    decreases fn, 1
  {
    if ctx.Some? {
      err := Invoke(fn, ctx.value, pool, o);
      return;
    }
    if !o.begins {
      return Some(Wrap(BeginFailed));
    }
    var tx := new Tx();
    pool.begun := pool.begun + 1;
    var failed := Invoke(fn, tx, pool, o);
    if failed.Some? {
      var e := failed.value;
      RetryIsReported(e, o, AppFailure(0));
      if IsTransactionAbort(e) {
        e := Join(e, RetryAborted);
      }
      if !o.rollsBack {
        return Some(Join(e, Wrap(RollbackFailed)));
      }
      return Some(e);
    }
    if tx.aborted || !o.commits {
      return Some(Wrap(CommitFailed));
    }
    pool.committed := pool.committed + tx.writes;
    err := None;
  }

  // ---------------------------------------------------------------- what that means

  /** A repository call, as it was made. */
  datatype Made = Made(op: Op, handed: bool, answer: Answer)

  /** The calls that a run of the callback makes, at any depth, in the order made. */
  ghost function CallsMade(fn: Fn, aborted: bool): seq<Made> {
    match fn
    case Return(_) => []
    case Call(op, handed, answer, next, refused) =>
      [Made(op, handed, answer)] +
      if handed && aborted then CallsMade(refused, true) else CallsMade(next, One(op, handed, answer, aborted).aborted)
    case Nest(inner, onNil, onError) =>
      var nested := Meaning(inner, aborted);
      CallsMade(inner, aborted) + CallsMade(if nested.error.None? then onNil else onError, nested.aborted)
  }

  ghost predicate Aborts(c: Made) { c.handed && c.answer == Failed }

  /** The executed ones among calls of one kind. */
  ghost function ExecutedOf(cs: seq<Made>, handed: bool): seq<Op> {
    if cs == [] then []
    else (if cs[0].handed == handed && cs[0].answer == Executed then [cs[0].op] else []) + ExecutedOf(cs[1..], handed)
  }

  /** The calls before the first that aborts. */
  ghost function BeforeAbort(cs: seq<Made>): seq<Made> {
    if cs == [] || Aborts(cs[0]) then [] else [cs[0]] + BeforeAbort(cs[1..])
  }

  lemma {:induction false} ExecutedConcat(a: seq<Made>, b: seq<Made>, handed: bool)
    ensures ExecutedOf(a + b, handed) == ExecutedOf(a, handed) + ExecutedOf(b, handed)
  {
    if a == [] {
      assert a + b == b;
    } else {
      assert (a + b)[0] == a[0] && (a + b)[1..] == a[1..] + b;
      ExecutedConcat(a[1..], b, handed);
      var first := if a[0].handed == handed && a[0].answer == Executed then [a[0].op] else [];
      assert ExecutedOf(a + b, handed) == first + ExecutedOf(a[1..] + b, handed);
      Regroup(first, ExecutedOf(a[1..], handed), ExecutedOf(b, handed));
    }
  }

  lemma {:induction false} BeforeAbortConcat(a: seq<Made>, b: seq<Made>)
    ensures (exists c :: c in a && Aborts(c)) ==> BeforeAbort(a + b) == BeforeAbort(a)
    ensures !(exists c :: c in a && Aborts(c)) ==> BeforeAbort(a + b) == a + BeforeAbort(b)
  {
    if a == [] {
      assert a + b == b;
    } else {
      assert (a + b)[0] == a[0] && (a + b)[1..] == a[1..] + b;
      assert a[0] in a && forall c :: c in a <==> c == a[0] || c in a[1..];
      BeforeAbortConcat(a[1..], b);
    }
  }

  lemma CallsConcat(a: seq<Made>, b: seq<Made>)
    ensures ExecutedOf(a + b, false) == ExecutedOf(a, false) + ExecutedOf(b, false)
    ensures ExecutedOf(a + b, true) == ExecutedOf(a, true) + ExecutedOf(b, true)
    ensures BeforeAbort(a + b) == if exists c :: c in a && Aborts(c) then BeforeAbort(a) else a + BeforeAbort(b)
  {
    ExecutedConcat(a, b, false);
    ExecutedConcat(a, b, true);
    BeforeAbortConcat(a, b);
  }

  /** The calls with a handed context, at any depth, are the transaction's calls, in order, up to the
      first statement that fails; that one aborts the transaction, whatever the callbacks make of it. */
  lemma {:induction false} CallsJoin(fn: Fn, aborted: bool)
    ensures Meaning(fn, aborted).detached == ExecutedOf(CallsMade(fn, aborted), false)
    ensures Meaning(fn, aborted).joined == if aborted then [] else ExecutedOf(BeforeAbort(CallsMade(fn, aborted)), true)
    ensures Meaning(fn, aborted).aborted <==> aborted || exists c :: c in CallsMade(fn, aborted) && Aborts(c)
  {
    match fn
    case Return(_) =>
    case Call(op, handed, answer, next, refused) =>
      var made := [Made(op, handed, answer)];
      var one := One(op, handed, answer, aborted);
      assert made[0] in made && made[1..] == [];
      if handed && aborted {
        CallsJoin(refused, true);
        CallsConcat(made, CallsMade(refused, true));
      } else {
        CallsJoin(next, one.aborted);
        CallsConcat(made, CallsMade(next, one.aborted));
        CallsConcat(made, BeforeAbort(CallsMade(next, one.aborted)));
      }
    case Nest(inner, onNil, onError) =>
      var nested := Meaning(inner, aborted);
      var rest := if nested.error.None? then onNil else onError;
      CallsJoin(inner, aborted);
      CallsJoin(rest, nested.aborted);
      CallsConcat(CallsMade(inner, aborted), CallsMade(rest, nested.aborted));
      if !nested.aborted {
        NoAbort(CallsMade(inner, aborted));
        CallsConcat(CallsMade(inner, aborted), BeforeAbort(CallsMade(rest, nested.aborted)));
      }
  }

  lemma {:induction false} NoAbort(cs: seq<Made>)
    requires forall c :: c in cs ==> !Aborts(c)
    ensures BeforeAbort(cs) == cs
  {
    if cs != [] {
      assert cs[0] in cs;
      NoAbort(cs[1..]);
    }
  }

  /** An outermost call keeps all the calls made with a handed context, in order, or none of them: all
      exactly when the callback returns nil, no statement of the transaction failed, and the commit
      succeeds. Calls made around the transaction are kept always. */
  lemma CallsJoinTheTransaction(fn: Fn, o: Outcomes)
    ensures var ran, calls := Meaning(fn, false), CallsMade(fn, false);
            ran.detached == ExecutedOf(calls, false) &&
            Kept(ran, o) == if ran.error.None? && o.commits && !(exists c :: c in calls && Aborts(c)) then ExecutedOf(calls, true) else []
  {
    CallsJoin(fn, false);
    var calls := CallsMade(fn, false);
    if !(exists c :: c in calls && Aborts(c)) { NoAbort(calls); }
  }

  /** A nested call that fails is not undone by itself. When its caller goes on and returns nil, the
      nested writes are kept with the caller's exactly when no statement failed on the way; when one did,
      the commit fails and nothing of the transaction is kept. */
  lemma SwallowedErrors(inner: Fn, rest: Fn, o: Outcomes)
    requires Meaning(inner, false).error.Some? && Meaning(rest, Meaning(inner, false).aborted).error.None?
    ensures var nested, outer := Meaning(inner, false), Meaning(Nest(inner, Return(None), rest), false);
            outer.error.None? &&
            (CommitSucceeds(outer, o) <==> o.commits && !nested.aborted && !Meaning(rest, false).aborted) &&
            Kept(outer, o) == if CommitSucceeds(outer, o) then nested.joined + Meaning(rest, false).joined else []
  {
    CallsJoin(rest, true);
  }

  /** Nesting is only grouping: a callback whose errors are passed on means the same as its steps
      run in its caller. */
  function Then(fn: Fn, next: Fn): Fn {
    match fn
    case Return(e) => if e.None? then next else fn
    case Call(op, handed, answer, rest, refused) => Call(op, handed, answer, Then(rest, next), Then(refused, next))
    case Nest(inner, onNil, onError) => Nest(inner, Then(onNil, next), Then(onError, next))
  }

  lemma ChainAssociates(a: Ran, b: Ran, c: Ran)
    ensures Chain(Chain(a, b), c) == Chain(a, Chain(b, c))
  {
  }

  lemma {:induction false} ThenMeans(fn: Fn, next: Fn, aborted: bool)
    ensures var ran := Meaning(fn, aborted);
            Meaning(Then(fn, next), aborted) == if ran.error.None? then Chain(ran, Meaning(next, ran.aborted)) else ran
  {
    match fn
    case Return(_) =>
      var after := Meaning(next, aborted);
      assert Chain(Ran([], [], aborted, None), after) == after;
    case Call(op, handed, answer, rest, refused) =>
      var one := One(op, handed, answer, aborted);
      var then' := if handed && aborted then refused else rest;
      ThenMeans(then', next, one.aborted);
      ChainAssociates(one, Meaning(then', one.aborted), Meaning(next, Meaning(then', one.aborted).aborted));
    case Nest(inner, onNil, onError) =>
      var nested := Meaning(inner, aborted);
      var rest := if nested.error.None? then onNil else onError;
      ThenMeans(rest, next, nested.aborted);
      ChainAssociates(nested, Meaning(rest, nested.aborted), Meaning(next, Meaning(rest, nested.aborted).aborted));
  }

  lemma NestingIsGrouping(inner: Fn, next: Fn, e: Failure, aborted: bool)
    requires Meaning(inner, aborted).error == None || Meaning(inner, aborted).error == Some(e)
    ensures Meaning(Nest(inner, next, Return(Some(e))), aborted) == Meaning(Then(inner, next), aborted)
  {
    ThenMeans(inner, next, aborted);
  }

  lemma CarriesJoin(a: Failure, b: Failure, leaf: Failure)
    requires !leaf.Join? && !leaf.Wrap?
    ensures Carries(Join(a, b), leaf) <==> Carries(a, leaf) || Carries(b, leaf)
    ensures Carries(Wrap(a), leaf) <==> Carries(a, leaf)
  {
  }

  /** The caller is told to retry exactly when the first PostgreSQL error of the callback is a
      serialization failure or a deadlock, unless the callback said so itself; a failed rollback is
      reported; and the callback's own errors stay available. */
  lemma RetryIsReported(e: Failure, o: Outcomes, leaf: Failure)
    requires leaf.AppFailure? || leaf.PgFailure?
    ensures Carries(Reported(e, o), RetryAborted) <==> AsPg(e) in {Some("40001"), Some("40P01")} || Carries(e, RetryAborted)
    ensures Carries(Reported(e, o), RollbackFailed) <==> !o.rollsBack || Carries(e, RollbackFailed)
    ensures Carries(Reported(e, o), leaf) <==> Carries(e, leaf)
    ensures AsPg(Reported(e, o)) == AsPg(e)
  {
    var aborted := Join(e, RetryAborted);
    forall f | f in {RetryAborted, RollbackFailed, leaf}
      ensures Carries(aborted, f) <==> Carries(e, f) || f == RetryAborted
      ensures Carries(Join(aborted, Wrap(RollbackFailed)), f) <==> Carries(aborted, f) || f == RollbackFailed
      ensures Carries(Join(e, Wrap(RollbackFailed)), f) <==> Carries(e, f) || f == RollbackFailed
    {
      CarriesJoin(e, RetryAborted, f);
      CarriesJoin(aborted, Wrap(RollbackFailed), f);
      CarriesJoin(e, Wrap(RollbackFailed), f);
      CarriesJoin(RollbackFailed, RollbackFailed, f);
    }
    assert AsPg(Wrap(RollbackFailed)) == AsPg(RollbackFailed) == None;
    assert AsPg(aborted) == AsPg(e);
  }
}
