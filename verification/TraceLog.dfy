/** The log handler: a cached handler over a recorded list of calls, trace fields placed at the top
    level, and reserved keys kept for the handler itself. */
module TraceLog {
  import opened Domain

  // ---------------------------------------------------------------- records and attributes

  /** Attribute keys are not empty; slog gives an empty key a meaning of its own. */
  type Name = s: string | s != "" witness "a"

  datatype Value =
    | Text(text: string)
    | Flag(flag: bool)
    | Moment(at: int)
    | Grade(level: int)
    | Origin(file: string, line: int, routine: string)
    | Group(attrs: seq<Attr>)
    | Other(id: int)

  datatype Attr = Attr(key: Name, value: Value)

  datatype Source = Source(file: string, line: int, routine: string)

  /** A record; the time is absent when zero, the source when the handler does not add it. */
  datatype Record = Record(time: Option<int>, level: int, message: string, source: Option<Source>, attrs: seq<Attr>)

  datatype Span = Span(traceId: string, spanId: string, sampled: bool)

  /** How times and numbers are written, and Value.String. */
  datatype Format = Format(time: int -> string, number: int -> string, show: Value -> string)

  const LevelInfo := 0
  const LevelWarn := 4
  const LevelError := 8
  const LevelCritical := LevelError + 4

  const CloudPrefix := "logging.googleapis.com/"
  const KeyTrace := "logging.googleapis.com/trace"
  const KeySpanId := "logging.googleapis.com/spanId"
  const KeyTraceSampled := "logging.googleapis.com/trace_sampled"
  const KeySourceLocation := "logging.googleapis.com/sourceLocation"
  const ReservedKeys := {"time", "severity", "message", "level", "msg", "source"}
  const TraceKeys := {KeyTrace, KeySpanId, KeyTraceSampled}

  /** The keys the handler writes itself. */
  const WrittenKeys := {"time", "severity", "message", KeySourceLocation, KeyTrace, KeySpanId, KeyTraceSampled}

  predicate IsReserved(key: string) { CloudPrefix <= key || key in ReservedKeys }

  function RenameReserved(a: Attr): Attr { if IsReserved(a.key) then Attr("attr_" + a.key, a.value) else a }

  function Renamed(attrs: seq<Attr>): (r: seq<Attr>)
    ensures |r| == |attrs|
  {
    seq(|attrs|, i requires 0 <= i < |attrs| => RenameReserved(attrs[i]))
  }

  function SeverityOf(level: int): string {
    if level < LevelInfo then "DEBUG"
    else if level < LevelWarn then "INFO"
    else if level < LevelError then "WARNING"
    else if level < LevelCritical then "ERROR"
    else "CRITICAL"
  }

  const Severities := ["DEBUG", "INFO", "WARNING", "ERROR", "CRITICAL"]

  /** How many of the named levels a level reaches. */
  function Rung(level: int): nat {
    (if level >= LevelInfo then 1 else 0) + (if level >= LevelWarn then 1 else 0) + (if level >= LevelError then 1 else 0) +
    (if level >= LevelCritical then 1 else 0)
  }

  /** Each named level has its own severity, levels in between count as the named level below them, and a
      higher level is never less severe. */
  lemma SeveritiesCoverLevels(level: int, higher: int)
    requires level <= higher
    ensures exists i, j :: 0 <= i <= j < |Severities| && SeverityOf(level) == Severities[i] && SeverityOf(higher) == Severities[j]
    ensures SeverityOf(LevelInfo - 4) == "DEBUG" && SeverityOf(LevelInfo) == "INFO" && SeverityOf(LevelWarn) == "WARNING"
    ensures SeverityOf(LevelError) == "ERROR" && SeverityOf(LevelCritical) == "CRITICAL"
    ensures LevelInfo - 4 <= level < LevelCritical ==> SeverityOf(level) == SeverityOf(level / 4 * 4)
  {
    assert SeverityOf(level) == Severities[Rung(level)] && SeverityOf(higher) == Severities[Rung(higher)];
  }

  /** replaceAttr, outside every group. */
  function ReplaceAttr(f: Format, a: Attr): Attr {
    if a.key == "time" then if a.value.Moment? then Attr("time", Text(f.time(a.value.at))) else a
    else if a.key == "level" then if a.value.Grade? then Attr("severity", Text(SeverityOf(a.value.level))) else a
    else if a.key == "msg" then Attr("message", Text(f.show(a.value)))
    else if a.key == "source" then
      if a.value.Origin? then
        Attr(KeySourceLocation, Group([Attr("file", Text(a.value.file)), Attr("line", Text(f.number(a.value.line))),
                                       Attr("function", Text(a.value.routine))]))
      else a
    else a
  }

  function Replaced(f: Format, attrs: seq<Attr>): (r: seq<Attr>)
    ensures |r| == |attrs|
  {
    seq(|attrs|, i requires 0 <= i < |attrs| => if attrs[i].value.Group? then attrs[i] else ReplaceAttr(f, attrs[i]))
  }

  // ---------------------------------------------------------------- the JSON handler underneath

  datatype Json = Scalar(value: Value) | Object(fields: seq<Field>)

  datatype Field = Field(key: string, value: Json)

  /** A group without fields is left out. */
  function Grouped(key: string, fields: seq<Field>): seq<Field> { if fields == [] then [] else [Field(key, Object(fields))] }

  function Emit(a: Attr): seq<Field> {
    match a.value
    case Group(attrs) => Grouped(a.key, EmitAll(attrs))
    case _ => [Field(a.key, Scalar(a.value))]
  }

  function EmitAll(attrs: seq<Attr>): seq<Field> {
    if attrs == [] then [] else Emit(attrs[0]) + EmitAll(attrs[1..])
  }

  /** What WithAttrs and WithGroup have collected at one nesting level. */
  datatype Frame = Frame(group: string, fields: seq<Field>)

  /** The JSON handler: the fields preformatted at the top level and in each group still open. */
  datatype JsonHandler = JsonHandler(format: Format, top: seq<Field>, groups: seq<Frame>)

  function FormatAttrs(h: JsonHandler, attrs: seq<Attr>): seq<Field> {
    EmitAll(if h.groups == [] then Replaced(h.format, attrs) else attrs)
  }

  function JsonWithAttrs(h: JsonHandler, attrs: seq<Attr>): JsonHandler {
    if h.groups == [] then h.(top := h.top + FormatAttrs(h, attrs))
    else
      var n := |h.groups| - 1;
      h.(groups := h.groups[n := h.groups[n].(fields := h.groups[n].fields + EmitAll(attrs))])
  }

  function JsonWithGroup(h: JsonHandler, name: string): JsonHandler { h.(groups := h.groups + [Frame(name, [])]) }

  /** The fields of the open groups, closed one after the other around the innermost fields. */
  function Close(groups: seq<Frame>, fields: seq<Field>): seq<Field> {
    if groups == [] then fields
    else
      var last := groups[|groups| - 1];
      Close(groups[..|groups| - 1], Grouped(last.group, last.fields + fields))
  }

  /** The record's own attributes, before user attributes. */
  function BuiltIns(r: Record): seq<Attr> {
    (if r.time.Some? then [Attr("time", Moment(r.time.value))] else []) +
    [Attr("level", Grade(r.level))] +
    (if r.source.Some? then [Attr("source", Origin(r.source.value.file, r.source.value.line, r.source.value.routine))] else []) +
    [Attr("msg", Text(r.message))]
  }

  function HandleJson(h: JsonHandler, r: Record): seq<Field> {
    EmitAll(Replaced(h.format, BuiltIns(r))) + h.top + Close(h.groups, FormatAttrs(h, r.attrs))
  }

  // ---------------------------------------------------------------- the calls, and what they mean

  /** A call that a caller makes on a handler. */
  datatype Call = Attrs(attrs: seq<Attr>) | OpenGroup(group: string)

  /** The reference: the fields that calls and a record's attributes stand for, read from the outside
      in. Only names at the top level are kept out of the way of reserved keys. */
  function Body(calls: seq<Call>, attrs: seq<Attr>, top: bool): seq<Field> {
    if calls == [] then EmitAll(if top then Renamed(attrs) else attrs)
    else match calls[0]
         case Attrs(more) => EmitAll(if top then Renamed(more) else more) + Body(calls[1..], attrs, top)
         case OpenGroup(name) => if name == "" then Body(calls[1..], attrs, top) else Grouped(name, Body(calls[1..], attrs, false))
  }

  function TraceName(project: string, traceId: string): string {
    if project == "" then traceId else "projects/" + project + "/traces/" + traceId
  }

  function TraceAttrs(project: string, span: Span): seq<Attr> {
    [Attr(KeyTrace, Text(TraceName(project, span.traceId))), Attr(KeySpanId, Text(span.spanId)), Attr(KeyTraceSampled, Flag(span.sampled))]
  }

  function TraceFields(project: string, span: Option<Span>): seq<Field> {
    if span.None? then []
    else [Field(KeyTrace, Scalar(Text(TraceName(project, span.value.traceId)))), Field(KeySpanId, Scalar(Text(span.value.spanId))),
          Field(KeyTraceSampled, Scalar(Flag(span.value.sampled)))]
  }

  /** The entry that a record logged through the calls stands for. */
  function Entry(f: Format, project: string, calls: seq<Call>, span: Option<Span>, r: Record): seq<Field> {
    EmitAll(Replaced(f, BuiltIns(r))) + TraceFields(project, span) + Body(calls, r.attrs, true)
  }

  // ---------------------------------------------------------------- recorded operations

  datatype HandlerOp = HandlerOp(attrs: seq<Attr>, group: string)

  function ApplyOp(o: HandlerOp, h: JsonHandler): JsonHandler {
    if o.group != "" then JsonWithGroup(h, o.group) else JsonWithAttrs(h, o.attrs)
  }

  function Replay(ops: seq<HandlerOp>, h: JsonHandler): JsonHandler {
    if ops == [] then h else Replay(ops[1..], ApplyOp(ops[0], h))
  }

  predicate AnyGroup(ops: seq<HandlerOp>) { exists i :: 0 <= i < |ops| && ops[i].group != "" }

  /** The operations that a sequence of calls records. */
  function Recorded(calls: seq<Call>, grouped: bool): seq<HandlerOp> {
    if calls == [] then []
    else match calls[0]
         case Attrs(attrs) =>
           if attrs == [] then Recorded(calls[1..], grouped)
           else [HandlerOp(if grouped then attrs else Renamed(attrs), "")] + Recorded(calls[1..], grouped)
         case OpenGroup(name) => if name == "" then Recorded(calls[1..], grouped) else [HandlerOp([], name)] + Recorded(calls[1..], true)
  }

  function OpensGroup(calls: seq<Call>): bool { exists i :: 0 <= i < |calls| && calls[i].OpenGroup? && calls[i].group != "" }

  lemma {:induction false} ReplayConcat(a: seq<HandlerOp>, b: seq<HandlerOp>, h: JsonHandler)
    ensures Replay(a + b, h) == Replay(b, Replay(a, h))
  {
    if a == [] {
      assert a + b == b;
    } else {
      assert (a + b)[0] == a[0] && (a + b)[1..] == a[1..] + b;
      ReplayConcat(a[1..], b, ApplyOp(a[0], h));
    }
  }

  lemma {:induction false} RecordedConcat(a: seq<Call>, c: Call, grouped: bool)
    ensures Recorded(a + [c], grouped) == Recorded(a, grouped) + Recorded([c], grouped || OpensGroup(a))
    ensures OpensGroup(a + [c]) <==> OpensGroup(a) || (c.OpenGroup? && c.group != "")
  {
    if a == [] {
      assert a + [c] == [c];
    } else {
      var rest := a[1..];
      assert (a + [c])[0] == a[0] && (a + [c])[1..] == rest + [c];
      RecordedConcat(rest, c, grouped || (a[0].OpenGroup? && a[0].group != ""));
      OpensGroupHead(a);
    }
    OpensGroupLast(a, c);
  }

  lemma OpensGroupHead(a: seq<Call>)
    requires a != []
    ensures OpensGroup(a) <==> (a[0].OpenGroup? && a[0].group != "") || OpensGroup(a[1..])
  {
    var rest := a[1..];
    if i :| 0 <= i < |rest| && rest[i].OpenGroup? && rest[i].group != "" { assert a[i + 1] == rest[i]; }
    if i :| 0 <= i < |a| && a[i].OpenGroup? && a[i].group != "" { if i > 0 { assert rest[i - 1] == a[i]; } }
  }

  lemma OpensGroupLast(a: seq<Call>, c: Call)
    ensures OpensGroup(a + [c]) <==> OpensGroup(a) || (c.OpenGroup? && c.group != "")
  {
    var all := a + [c];
    if i :| 0 <= i < |a| && a[i].OpenGroup? && a[i].group != "" { assert all[i] == a[i]; }
    if c.OpenGroup? && c.group != "" { assert all[|a|] == c; }
    if i :| 0 <= i < |all| && all[i].OpenGroup? && all[i].group != "" { if i < |a| { assert a[i] == all[i]; } }
  }

  // ---------------------------------------------------------------- the handler

  /** renameReservedAttrs: the same attributes when nothing collides, a renamed copy otherwise. */
  method RenameReservedAttrs(attrs: seq<Attr>) returns (r: seq<Attr>)
    ensures r == Renamed(attrs)
  {
    if forall i :: 0 <= i < |attrs| ==> !IsReserved(attrs[i].key) {
      assert Renamed(attrs) == attrs;
      return attrs;
    }
    r := [];
    for i := 0 to |attrs|
      invariant r == Renamed(attrs)[..i]
    {
      r := r + [RenameReserved(attrs[i])];
    }
  }

  /** renameReservedRecord: looks for a collision first, and rebuilds the record only then. */
  method RenameReservedRecord(record: Record) returns (r: Record)
    ensures r == record.(attrs := Renamed(record.attrs))
  {
    var collides := false;
    var k := 0;
    while k < |record.attrs| && !collides
      invariant 0 <= k <= |record.attrs|
      invariant !collides ==> forall i :: 0 <= i < k ==> !IsReserved(record.attrs[i].key)
    {
      collides := IsReserved(record.attrs[k].key);
      k := k + 1;
    }
    if !collides {
      assert Renamed(record.attrs) == record.attrs;
      return record;
    }
    r := record.(attrs := []);
    for i := 0 to |record.attrs|
      invariant r == record.(attrs := Renamed(record.attrs)[..i])
    {
      r := r.(attrs := r.attrs + [RenameReserved(record.attrs[i])]);
    }
  }

  /** traceHandler. The handler derived from base is kept ready in inner, beside the recorded
      operations it was derived by; calls is what its callers have asked for. */
  class TraceHandler {
    const base: JsonHandler
    const inner: JsonHandler
    const ops: array<HandlerOp>
    const project: string
    const grouped: bool
    ghost const calls: seq<Call>

    ghost predicate Valid()
      reads ops
    {
      base.top == [] && base.groups == [] && ops[..] == Recorded(calls, false) &&
      inner == Replay(ops[..], base) && grouped == OpensGroup(calls)
    }

    /** newTraceHandler: applies the operations to base once. */
    constructor (base: JsonHandler, ops: array<HandlerOp>, project: string, ghost calls: seq<Call>)
      requires base.top == [] && base.groups == [] && ops[..] == Recorded(calls, false)
      ensures Valid() && this.base == base && this.ops == ops && this.project == project && this.calls == calls
    {
      var inner := base;
      var grouped := false;
      for i := 0 to ops.Length
        invariant inner == Replay(ops[..i], base)
        invariant grouped == AnyGroup(ops[..i])
      {
        var op := ops[i];
        assert ops[..i + 1] == ops[..i] + [op];
        ReplayConcat(ops[..i], [op], base);
        AnyGroupLast(ops[..i], op);
        inner := ApplyOp(op, inner);
        grouped := grouped || op.group != "";
      }
      assert ops[..ops.Length] == ops[..];
      RecordedGroups(calls);
      this.base, this.inner, this.ops, this.project, this.grouped := base, inner, ops, project, grouped;
      this.calls := calls;
    }

    /** appendOp: the new list is a copy, so two handlers derived from one never share storage. */
    method AppendOp(op: HandlerOp) returns (r: array<HandlerOp>)
      ensures fresh(r) && r[..] == ops[..] + [op]
    {
      r := new HandlerOp[ops.Length + 1](i requires 0 <= i <= ops.Length reads ops => if i < ops.Length then ops[i] else op);
    }

    /** WithAttrs. */
    method WithAttrs(attrs: seq<Attr>) returns (h: TraceHandler)
      requires Valid()
      ensures h.Valid() && h.base == base && h.project == project
      ensures if attrs == [] then h == this else fresh(h) && fresh(h.ops) && h.calls == calls + [Attrs(attrs)]
    {
      if attrs == [] {
        return this;
      }
      var named := attrs;
      if !grouped {
        named := RenameReservedAttrs(attrs);
      }
      var more := AppendOp(HandlerOp(named, ""));
      RecordedConcat(calls, Attrs(attrs), false);
      assert Recorded([Attrs(attrs)], OpensGroup(calls)) == [HandlerOp(named, "")];
      h := new TraceHandler(base, more, project, calls + [Attrs(attrs)]);
    }

    /** WithGroup. */
    method WithGroup(name: string) returns (h: TraceHandler)
      requires Valid()
      ensures h.Valid() && h.base == base && h.project == project
      ensures if name == "" then h == this else fresh(h) && fresh(h.ops) && h.calls == calls + [OpenGroup(name)]
    {
      if name == "" {
        return this;
      }
      var more := AppendOp(HandlerOp([], name));
      RecordedConcat(calls, OpenGroup(name), false);
      assert Recorded([OpenGroup(name)], OpensGroup(calls)) == [HandlerOp([], name)];
      h := new TraceHandler(base, more, project, calls + [OpenGroup(name)]);
    }

    /** Handle: what is written is the entry that the calls stand for, with or without a span, through
        the cached handler or by replay. */
    method Handle(span: Option<Span>, record: Record) returns (entry: seq<Field>)
      requires Valid()
      ensures entry == Entry(base.format, project, calls, span, record)
    {
      var logged := record;
      if !grouped {
        logged := RenameReservedRecord(record);
      }
      EntryByReplay(base, project, calls, span, record);
      if span.None? {
        return HandleJson(inner, logged);
      }
      var handler := JsonWithAttrs(base, TraceAttrs(project, span.value));
      ghost var start := handler;
      for i := 0 to ops.Length
        invariant handler == Replay(ops[..i], start)
      {
        assert ops[..i + 1] == ops[..i] + [ops[i]];
        ReplayConcat(ops[..i], [ops[i]], start);
        handler := ApplyOp(ops[i], handler);
      }
      assert ops[..ops.Length] == ops[..];
      return HandleJson(handler, logged);
    }
  }

  lemma AnyGroupLast(ops: seq<HandlerOp>, op: HandlerOp)
    ensures AnyGroup(ops + [op]) <==> AnyGroup(ops) || op.group != ""
  {
    var all := ops + [op];
    if i :| 0 <= i < |ops| && ops[i].group != "" { assert all[i] == ops[i]; }
    if op.group != "" { assert all[|ops|] == op; }
    if i :| 0 <= i < |all| && all[i].group != "" { if i < |ops| { assert ops[i] == all[i]; } }
  }

  lemma {:induction false} RecordedGroupsFrom(calls: seq<Call>, grouped: bool)
    ensures AnyGroup(Recorded(calls, grouped)) <==> OpensGroup(calls)
  {
    if calls != [] {
      var rest := calls[1..];
      OpensGroupHead(calls);
      RecordedGroupsFrom(rest, grouped || (calls[0].OpenGroup? && calls[0].group != ""));
      var tail := Recorded(rest, grouped || (calls[0].OpenGroup? && calls[0].group != ""));
      forall op ensures AnyGroup([op] + tail) <==> op.group != "" || AnyGroup(tail) { AnyGroupHead(op, tail); }
    }
  }

  lemma AnyGroupHead(op: HandlerOp, tail: seq<HandlerOp>)
    ensures AnyGroup([op] + tail) <==> op.group != "" || AnyGroup(tail)
  {
    var all := [op] + tail;
    if i :| 0 <= i < |tail| && tail[i].group != "" { assert all[i + 1] == tail[i]; }
    if op.group != "" { assert all[0] == op; }
    if i :| 0 <= i < |all| && all[i].group != "" { if i > 0 { assert tail[i - 1] == all[i]; } }
  }

  lemma RecordedGroups(calls: seq<Call>)
    ensures AnyGroup(Recorded(calls, false)) <==> OpensGroup(calls)
  {
    RecordedGroupsFrom(calls, false);
  }

  // ---------------------------------------------------------------- replay means the calls

  /** Reserved are the keys of Cloud Logging and those of the record itself. A reserved key gets a prefix,
      which makes it another that is not reserved; the value stays, and so does every other attribute. */
  lemma RenamedNotReserved(a: Attr)
    ensures !IsReserved(RenameReserved(a).key) && RenameReserved(a).value == a.value
    ensures RenameReserved(a).key == if IsReserved(a.key) then "attr_" + a.key else a.key
    ensures IsReserved(a.key) <==>
            "logging.googleapis.com/" <= a.key || a.key in {"time", "severity", "message", "level", "msg", "source"}
  {
    var k := "attr_" + a.key;
    assert k[0] == 'a' && k[1] == 't' && CloudPrefix[0] == 'l';
    forall r | r in ReservedKeys ensures k != r { assert r[0] != 'a'; }
  }

  lemma UnreservedUnreplaced(f: Format, a: Attr)
    requires !IsReserved(a.key)
    ensures ReplaceAttr(f, a) == a
  {
  }

  lemma RenamedUnreplaced(f: Format, attrs: seq<Attr>)
    ensures Replaced(f, Renamed(attrs)) == Renamed(attrs)
  {
    hide IsReserved;
    var named := Renamed(attrs);
    forall i | 0 <= i < |attrs| ensures Replaced(f, named)[i] == named[i] {
      RenamedNotReserved(attrs[i]);
      UnreservedUnreplaced(f, named[i]);
    }
  }

  lemma {:induction false} CloseOuter(outer: seq<Frame>, groups: seq<Frame>, fields: seq<Field>)
    ensures Close(outer + groups, fields) == Close(outer, Close(groups, fields))
    decreases |groups|
  {
    if groups == [] {
      assert outer + groups == outer;
    } else {
      var n := |groups| - 1;
      var all, last := outer + groups, groups[n];
      assert all[|all| - 1] == last && all[..|all| - 1] == outer + groups[..n];
      CloseOuter(outer, groups[..n], Grouped(last.group, last.fields + fields));
    }
  }

  /** The fields that a handler's open groups and the rest of the calls come to. */
  function Under(h: JsonHandler, fields: seq<Field>): seq<Field> { h.top + Close(h.groups, fields) }

  lemma UnderAttrs(h: JsonHandler, more: seq<Attr>, fields: seq<Field>)
    ensures Under(JsonWithAttrs(h, more), fields) == Under(h, FormatAttrs(h, more) + fields)
  {
    if h.groups == [] {
      assert h.top + (FormatAttrs(h, more) + fields) == (h.top + FormatAttrs(h, more)) + fields;
    } else {
      var n := |h.groups| - 1;
      var groups' := JsonWithAttrs(h, more).groups;
      assert groups'[..n] == h.groups[..n];
      assert h.groups[n].fields + (EmitAll(more) + fields) == (h.groups[n].fields + EmitAll(more)) + fields;
    }
  }

  lemma UnderGroup(h: JsonHandler, name: string, fields: seq<Field>)
    ensures Under(JsonWithGroup(h, name), fields) == Under(h, Grouped(name, fields))
  {
    var groups' := JsonWithGroup(h, name).groups;
    assert groups'[..|groups'| - 1] == h.groups && [] + fields == fields;
  }

  /** Replaying the recorded operations puts the record's attributes where the calls say. */
  lemma {:induction false} ReplayMeansBody(h: JsonHandler, calls: seq<Call>, attrs: seq<Attr>)
    ensures var ops, top := Recorded(calls, h.groups != []), h.groups == [];
            var h' := Replay(ops, h);
            var logged := if h'.groups == [] then Renamed(attrs) else attrs;
            h'.format == h.format && (h'.groups == [] <==> top && !OpensGroup(calls)) &&
            Under(h', FormatAttrs(h', logged)) == Under(h, Body(calls, attrs, top))
    decreases |calls|
  {
    hide Under, EmitAll, IsReserved;
    var top := h.groups == [];
    if calls == [] {
      RenamedUnreplaced(h.format, attrs);
    } else {
      var rest := calls[1..];
      OpensGroupHead(calls);
      match calls[0]
      case Attrs(more) =>
        if more == [] {
          ReplayMeansBody(h, rest, attrs);
          assert EmitAll(if top then Renamed(more) else more) == [] by { NothingEmitted(); }
          assert Body(calls, attrs, top) == Body(rest, attrs, top);
        } else {
          var named := if top then Renamed(more) else more;
          var ops := Recorded(calls, h.groups != []);
          var h1 := JsonWithAttrs(h, named);
          assert ops[0] == HandlerOp(named, "") && ops[1..] == Recorded(rest, h.groups != []);
          assert h1.groups == [] <==> top;
          ReplayMeansBody(h1, rest, attrs);
          if top { RenamedUnreplaced(h.format, more); }
          UnderAttrs(h, named, Body(rest, attrs, top));
        }
      case OpenGroup(name) =>
        if name == "" {
          ReplayMeansBody(h, rest, attrs);
        } else {
          var ops := Recorded(calls, h.groups != []);
          var h1 := JsonWithGroup(h, name);
          assert ops[0] == HandlerOp([], name) && ops[1..] == Recorded(rest, true);
          ReplayMeansBody(h1, rest, attrs);
          UnderGroup(h, name, Body(rest, attrs, false));
        }
    }
  }

  lemma NothingEmitted()
    ensures EmitAll([]) == [] && forall attrs: seq<Attr> :: attrs == [] ==> Renamed(attrs) == []
  {
  }

  lemma TraceAttrsEmitted(f: Format, project: string, span: Span)
    ensures EmitAll(Replaced(f, TraceAttrs(project, span))) == TraceFields(project, Some(span))
  {
    var attrs := TraceAttrs(project, span);
    assert KeyTrace[0] == 'l' && KeyTrace[1] == 'o' && KeySpanId[0] == 'l' && KeySpanId[1] == 'o' &&
           KeyTraceSampled[0] == 'l' && KeyTraceSampled[1] == 'o';
    assert "level"[1] == 'e' && "time"[0] == 't' && "msg"[0] == 'm' && "source"[0] == 's';
    assert Replaced(f, attrs) == attrs;
    assert attrs[1..][1..] == [attrs[2]] && attrs[2..] == [attrs[2]] && [attrs[2]][1..] == [];
    assert EmitAll([attrs[2]]) == [Field(KeyTraceSampled, Scalar(Flag(span.sampled)))];
    assert EmitAll(attrs[1..]) == Emit(attrs[1]) + EmitAll(attrs[1..][1..]);
  }

  lemma StartsWithTrace(base: JsonHandler, project: string, span: Option<Span>)
    requires base.top == [] && base.groups == []
    ensures var start := if span.None? then base else JsonWithAttrs(base, TraceAttrs(project, span.value));
            start == base.(top := TraceFields(project, span))
  {
    hide EmitAll, Replaced, TraceAttrs, TraceFields;
    if span.Some? {
      TraceAttrsEmitted(base.format, project, span.value);
      assert span == Some(span.value);
    } else {
      assert TraceFields(project, None) == [] by { NoTrace(project); }
    }
  }

  lemma NoTrace(project: string)
    ensures TraceFields(project, None) == []
  {
  }

  lemma HandledUnder(h: JsonHandler, r: Record)
    ensures HandleJson(h, r) == EmitAll(Replaced(h.format, BuiltIns(r))) + Under(h, FormatAttrs(h, r.attrs))
  {
    hide EmitAll, Replaced, BuiltIns, FormatAttrs, Close;
  }

  lemma UnderTop(h: JsonHandler, fields: seq<Field>)
    requires h.groups == []
    ensures Under(h, fields) == h.top + fields
  {
  }

  /** Both ways of writing a record, the cached handler and the replay over the trace fields, give
      the entry of the calls. */
  lemma EntryByReplay(base: JsonHandler, project: string, calls: seq<Call>, span: Option<Span>, r: Record)
    requires base.top == [] && base.groups == []
    ensures var logged := if OpensGroup(calls) then r else r.(attrs := Renamed(r.attrs));
            var start := if span.None? then base else JsonWithAttrs(base, TraceAttrs(project, span.value));
            HandleJson(Replay(Recorded(calls, false), start), logged) == Entry(base.format, project, calls, span, r)
  {
    hide EmitAll, IsReserved, OpensGroup, Replay, Recorded, Body, Renamed, TraceAttrs, TraceFields, Replaced, BuiltIns, HandleJson,
         Under, FormatAttrs, JsonWithAttrs;
    var logged := if OpensGroup(calls) then r else r.(attrs := Renamed(r.attrs));
    var start := if span.None? then base else JsonWithAttrs(base, TraceAttrs(project, span.value));
    StartsWithTrace(base, project, span);
    ReplayMeansBody(start, calls, r.attrs);
    var h := Replay(Recorded(calls, false), start);
    SameBuiltIns(r, logged);
    HandledUnder(h, logged);
    UnderTop(start, Body(calls, r.attrs, true));
    var front := EmitAll(Replaced(base.format, BuiltIns(r)));
    assert front + (TraceFields(project, span) + Body(calls, r.attrs, true)) ==
           front + TraceFields(project, span) + Body(calls, r.attrs, true);
  }

  lemma SameBuiltIns(r: Record, r': Record)
    requires r' == r.(attrs := r'.attrs)
    ensures BuiltIns(r') == BuiltIns(r)
  {
  }

  // ---------------------------------------------------------------- keys

  predicate HasKey(fields: seq<Field>, key: string) { exists i :: 0 <= i < |fields| && fields[i].key == key }

  lemma HasKeyConcat(a: seq<Field>, b: seq<Field>, key: string)
    ensures HasKey(a + b, key) <==> HasKey(a, key) || HasKey(b, key)
  {
    var all := a + b;
    if i :| 0 <= i < |a| && a[i].key == key { assert all[i] == a[i]; }
    if i :| 0 <= i < |b| && b[i].key == key { assert all[|a| + i] == b[i]; }
  }

  lemma {:induction false} EmitsOwnKeys(attrs: seq<Attr>, key: string)
    requires IsReserved(key)
    requires forall i :: 0 <= i < |attrs| ==> !IsReserved(attrs[i].key)
    ensures !HasKey(EmitAll(attrs), key)
  {
    hide IsReserved;
    if attrs != [] {
      assert !IsReserved(attrs[0].key);
      EmitsOwnKeys(attrs[1..], key);
      HasKeyConcat(Emit(attrs[0]), EmitAll(attrs[1..]), key);
    }
  }

  /** The first group that the calls open at the top level, and what it comes to hold. */
  function FirstGroup(calls: seq<Call>, attrs: seq<Attr>): Option<(string, seq<Field>)> {
    if calls == [] then None
    else match calls[0]
         case Attrs(_) => FirstGroup(calls[1..], attrs)
         case OpenGroup(name) => if name == "" then FirstGroup(calls[1..], attrs) else Some((name, Body(calls[1..], attrs, false)))
  }

  /** The first group opened has this name, and something in it. */
  predicate GroupNamed(calls: seq<Call>, attrs: seq<Attr>, key: string) {
    var first := FirstGroup(calls, attrs);
    first.Some? && first.value.0 == key && first.value.1 != []
  }

  /** No attribute, of a record or of a handler, takes a reserved key: a reserved key is there at the
      top level exactly when the first group opened is itself named so, and is not empty. Group names
      are not renamed. */
  lemma {:induction false} ReservedKeysAreKept(calls: seq<Call>, attrs: seq<Attr>, key: string)
    requires IsReserved(key)
    ensures HasKey(Body(calls, attrs, true), key) <==> GroupNamed(calls, attrs, key)
    decreases |calls|
  {
    hide IsReserved, EmitAll;
    if calls == [] {
      RenamedKeys(attrs, key);
    } else {
      match calls[0]
      case Attrs(more) =>
        RenamedKeys(more, key);
        ReservedKeysAreKept(calls[1..], attrs, key);
        HasKeyConcat(EmitAll(Renamed(more)), Body(calls[1..], attrs, true), key);
      case OpenGroup(name) =>
        if name == "" {
          ReservedKeysAreKept(calls[1..], attrs, key);
        } else {
          var inner := Body(calls[1..], attrs, false);
          if inner != [] { assert Body(calls, attrs, true)[0].key == name; }
        }
    }
  }

  lemma RenamedKeys(attrs: seq<Attr>, key: string)
    requires IsReserved(key)
    ensures !HasKey(EmitAll(Renamed(attrs)), key)
  {
    hide IsReserved, EmitAll;
    forall i | 0 <= i < |attrs| ensures !IsReserved(Renamed(attrs)[i].key) { RenamedNotReserved(attrs[i]); }
    EmitsOwnKeys(Renamed(attrs), key);
  }

  lemma WrittenKeysAreReserved(key: string)
    requires key in WrittenKeys
    ensures IsReserved(key)
  {
    assert KeyTrace[..23] == CloudPrefix && KeySpanId[..23] == CloudPrefix &&
           KeyTraceSampled[..23] == CloudPrefix && KeySourceLocation[..23] == CloudPrefix;
  }

  /** The keys promised to the handler are its own, unless the caller opens a group of just that name. */
  lemma AttributesTakeNoWrittenKey(calls: seq<Call>, attrs: seq<Attr>, key: string)
    requires key in WrittenKeys
    ensures HasKey(Body(calls, attrs, true), key) <==> GroupNamed(calls, attrs, key)
  {
    hide IsReserved, WrittenKeys, Body, FirstGroup;
    WrittenKeysAreReserved(key);
    ReservedKeysAreKept(calls, attrs, key);
  }

  /** A group of a reserved name hides the handler's own field: one group named severity, one attribute
      in it, and the entry has two fields of that key. */
  lemma GroupNamesAreNotRenamed(f: Format, record: Record, a: Attr)
    requires record.attrs == [a] && !a.value.Group?
    ensures var entry := Entry(f, "", [OpenGroup("severity")], None, record);
            exists i, j :: 0 <= i < j < |entry| && entry[i].key == "severity" && entry[j].key == "severity"
  {
    var calls := [OpenGroup("severity")];
    var inner := Body(calls[1..], [a], false);
    assert calls[1..] == [] && [a][1..] == [];
    var attrs := record.attrs;
    assert EmitAll(attrs) == Emit(attrs[0]) + EmitAll(attrs[1..]);
    assert inner == EmitAll(attrs) == [Field(a.key, Scalar(a.value))];
    assert Body(calls, record.attrs, true) == [Field("severity", Object(inner))];
    BuiltInFields(f, record);
    var front := EmitAll(Replaced(f, BuiltIns(record)));
    var entry := Entry(f, "", calls, None, record);
    assert entry == front + [Field("severity", Object(inner))];
    var i :| 0 <= i < |front| && front[i].key == "severity";
    assert entry[i].key == "severity" && entry[|front|].key == "severity";
  }

  /** The fields the handler makes of the record itself: its severity and its message, in that
      order, after the time when there is one. */
  lemma BuiltInFields(f: Format, r: Record)
    ensures var front := EmitAll(Replaced(f, BuiltIns(r)));
            front == (if r.time.Some? then [Field("time", Scalar(Text(f.time(r.time.value))))] else []) +
                     [Field("severity", Scalar(Text(SeverityOf(r.level))))] +
                     (if r.source.Some? then
                        [Field(KeySourceLocation, Object([Field("file", Scalar(Text(r.source.value.file))),
                                                          Field("line", Scalar(Text(f.number(r.source.value.line)))),
                                                          Field("function", Scalar(Text(r.source.value.routine)))]))] else []) +
                     [Field("message", Scalar(Text(f.show(Text(r.message)))))] &&
            HasKey(front, "severity")
  {
    hide EmitAll, Replaced, SeverityOf;
    var time := if r.time.Some? then [Attr("time", Moment(r.time.value))] else [];
    var level := [Attr("level", Grade(r.level))];
    var source := if r.source.Some? then [Attr("source", Origin(r.source.value.file, r.source.value.line, r.source.value.routine))] else [];
    var msg := [Attr("msg", Text(r.message))];
    BuiltInsApart(f, time + level + source, msg);
    BuiltInsApart(f, time + level, source);
    BuiltInsApart(f, time, level);
    OneBuiltIn(f, level[0]);
    OneBuiltIn(f, msg[0]);
    NoBuiltIns(f);
    if r.time.Some? { OneBuiltIn(f, time[0]); }
    if r.source.Some? {
      OneBuiltIn(f, source[0]);
      SourceFields(f, r.source.value);
    }
    var front := EmitAll(Replaced(f, BuiltIns(r)));
    var at := if r.time.Some? then 1 else 0;
    assert front[at].key == "severity";
  }

  lemma SourceFields(f: Format, o: Source)
    ensures Emit(ReplaceAttr(f, Attr("source", Origin(o.file, o.line, o.routine)))) ==
              [Field(KeySourceLocation, Object([Field("file", Scalar(Text(o.file))), Field("line", Scalar(Text(f.number(o.line)))),
                                                Field("function", Scalar(Text(o.routine)))]))]
  {
    var attrs := [Attr("file", Text(o.file)), Attr("line", Text(f.number(o.line))), Attr("function", Text(o.routine))];
    assert attrs[1..] == [attrs[1], attrs[2]] && [attrs[1], attrs[2]][1..] == [attrs[2]] && [attrs[2]][1..] == [];
    assert EmitAll([attrs[2]]) == Emit(attrs[2]);
    assert EmitAll([attrs[1], attrs[2]]) == Emit(attrs[1]) + EmitAll([attrs[2]]);
    assert EmitAll(attrs) == Emit(attrs[0]) + EmitAll(attrs[1..]);
    var fields := [Field("file", Scalar(attrs[0].value)), Field("line", Scalar(attrs[1].value)), Field("function", Scalar(attrs[2].value))];
    assert Emit(attrs[0]) == [fields[0]] && Emit(attrs[1]) == [fields[1]] && Emit(attrs[2]) == [fields[2]];
    assert EmitAll(attrs) == fields;
    var a := Attr("source", Origin(o.file, o.line, o.routine));
    assert ReplaceAttr(f, a) == Attr(KeySourceLocation, Group(attrs));
    assert Emit(Attr(KeySourceLocation, Group(attrs))) == Grouped(KeySourceLocation, EmitAll(attrs));
  }

  lemma NoBuiltIns(f: Format)
    ensures EmitAll(Replaced(f, [])) == []
  {
  }

  lemma OneBuiltIn(f: Format, a: Attr)
    requires !a.value.Group?
    ensures EmitAll(Replaced(f, [a])) == Emit(ReplaceAttr(f, a))
  {
    assert Replaced(f, [a]) == [ReplaceAttr(f, a)] && [ReplaceAttr(f, a)][1..] == [];
  }

  lemma BuiltInsApart(f: Format, a: seq<Attr>, b: seq<Attr>)
    ensures EmitAll(Replaced(f, a + b)) == EmitAll(Replaced(f, a)) + EmitAll(Replaced(f, b))
  {
    assert Replaced(f, a + b) == Replaced(f, a) + Replaced(f, b);
    EmitConcat(Replaced(f, a), Replaced(f, b));
  }

  lemma {:induction false} EmitConcat(a: seq<Attr>, b: seq<Attr>)
    ensures EmitAll(a + b) == EmitAll(a) + EmitAll(b)
  {
    if a == [] {
      assert a + b == b;
    } else {
      assert (a + b)[0] == a[0] && (a + b)[1..] == a[1..] + b;
      EmitConcat(a[1..], b);
    }
  }

  // ---------------------------------------------------------------- nothing is lost

  /** The groups that the calls open, from the outside in. */
  function GroupsOf(calls: seq<Call>): seq<string> {
    if calls == [] then []
    else (if calls[0].OpenGroup? && calls[0].group != "" then [calls[0].group] else []) + GroupsOf(calls[1..])
  }

  /** The field is there, under these groups. */
  ghost predicate IsUnder(fields: seq<Field>, path: seq<string>, f: Field)
    decreases |path|
  {
    if path == [] then f in fields
    else exists g :: g in fields && g.key == path[0] && g.value.Object? && IsUnder(g.value.fields, path[1..], f)
  }

  /** The field of an attribute: only outside every group is a reserved key renamed. */
  function FieldOf(a: Attr, top: bool): Field { Field(if top && IsReserved(a.key) then "attr_" + a.key else a.key, Scalar(a.value)) }

  lemma {:induction false} EmitsEach(attrs: seq<Attr>, a: Attr)
    requires a in attrs && !a.value.Group?
    ensures Field(a.key, Scalar(a.value)) in EmitAll(attrs)
  {
    if attrs[0] == a {
      assert Emit(a) == [Field(a.key, Scalar(a.value))];
    } else {
      EmitsEach(attrs[1..], a);
    }
  }

  lemma EmitsRenamed(attrs: seq<Attr>, a: Attr, top: bool)
    requires a in attrs && !a.value.Group?
    ensures FieldOf(a, top) in EmitAll(if top then Renamed(attrs) else attrs)
  {
    hide IsReserved, EmitAll;
    if top {
      var i :| 0 <= i < |attrs| && attrs[i] == a;
      assert Renamed(attrs)[i] == RenameReserved(a);
      RenamedNotReserved(a);
      EmitsEach(Renamed(attrs), RenameReserved(a));
    } else {
      EmitsEach(attrs, a);
    }
  }

  lemma MoreFieldsKeep(a: seq<Field>, b: seq<Field>, path: seq<string>, f: Field)
    requires IsUnder(b, path, f)
    ensures IsUnder(a + b, path, f)
  {
  }

  lemma GroupHolds(name: string, fields: seq<Field>, path: seq<string>, f: Field)
    requires IsUnder(fields, path, f)
    ensures IsUnder(Grouped(name, fields), [name] + path, f)
  {
    assert ([name] + path)[1..] == path;
    assert Grouped(name, fields) == [Field(name, Object(fields))];
  }

  /** An attribute of the record. */
  lemma {:induction false} RecordAttributeIsUnder(calls: seq<Call>, attrs: seq<Attr>, top: bool, a: Attr)
    requires a in attrs && !a.value.Group?
    ensures IsUnder(Body(calls, attrs, top), GroupsOf(calls), FieldOf(a, top && GroupsOf(calls) == []))
    decreases |calls|
  {
    hide EmitAll, IsReserved, FieldOf;
    if calls == [] {
      EmitsRenamed(attrs, a, top);
    } else {
      var rest := calls[1..];
      match calls[0]
      case Attrs(more) =>
        RecordAttributeIsUnder(rest, attrs, top, a);
        MoreFieldsKeep(EmitAll(if top then Renamed(more) else more), Body(rest, attrs, top), GroupsOf(rest),
                       FieldOf(a, top && GroupsOf(rest) == []));
        assert GroupsOf(calls) == GroupsOf(rest);
      case OpenGroup(name) =>
        if name == "" {
          RecordAttributeIsUnder(rest, attrs, top, a);
          assert GroupsOf(calls) == GroupsOf(rest);
        } else {
          RecordAttributeIsUnder(rest, attrs, false, a);
          GroupHolds(name, Body(rest, attrs, false), GroupsOf(rest), FieldOf(a, false));
        }
    }
  }

  /** An attribute given by the call at k. */
  lemma {:induction false} CallAttributeIsUnder(calls: seq<Call>, attrs: seq<Attr>, top: bool, k: nat, a: Attr)
    requires k < |calls| && calls[k].Attrs? && a in calls[k].attrs && !a.value.Group?
    ensures IsUnder(Body(calls, attrs, top), GroupsOf(calls[..k]), FieldOf(a, top && GroupsOf(calls[..k]) == []))
    decreases |calls|
  {
    hide EmitAll, IsReserved, FieldOf;
    var rest := calls[1..];
    if k == 0 {
      assert calls[..0] == [];
      EmitsRenamed(calls[0].attrs, a, top);
    } else {
      assert calls[..k][0] == calls[0] && calls[..k][1..] == rest[..k - 1];
      match calls[0]
      case Attrs(more) =>
        CallAttributeIsUnder(rest, attrs, top, k - 1, a);
        MoreFieldsKeep(EmitAll(if top then Renamed(more) else more), Body(rest, attrs, top), GroupsOf(rest[..k - 1]),
                       FieldOf(a, top && GroupsOf(rest[..k - 1]) == []));
        assert GroupsOf(calls[..k]) == GroupsOf(rest[..k - 1]);
      case OpenGroup(name) =>
        if name == "" {
          CallAttributeIsUnder(rest, attrs, top, k - 1, a);
          assert GroupsOf(calls[..k]) == GroupsOf(rest[..k - 1]);
        } else {
          CallAttributeIsUnder(rest, attrs, false, k - 1, a);
          GroupHolds(name, Body(rest, attrs, false), GroupsOf(rest[..k - 1]), FieldOf(a, false));
        }
    }
  }

  /** Every attribute reaches the entry with its value, under the groups that were open when it was given:
      those of the record under all of them, those of the call at k under the ones opened before. */
  lemma AttributesReachTheEntry(f: Format, project: string, calls: seq<Call>, span: Option<Span>, r: Record)
    ensures forall a :: a in r.attrs && !a.value.Group? ==>
              IsUnder(Entry(f, project, calls, span, r), GroupsOf(calls), FieldOf(a, GroupsOf(calls) == []))
    ensures forall k, a :: 0 <= k < |calls| && calls[k].Attrs? && a in calls[k].attrs && !a.value.Group? ==>
              IsUnder(Entry(f, project, calls, span, r), GroupsOf(calls[..k]), FieldOf(a, GroupsOf(calls[..k]) == []))
  {
    hide EmitAll, Body, FieldOf, GroupsOf, IsUnder, BuiltIns, Replaced, TraceFields;
    var front, body := EmitAll(Replaced(f, BuiltIns(r))) + TraceFields(project, span), Body(calls, r.attrs, true);
    forall a | a in r.attrs && !a.value.Group?
      ensures IsUnder(Entry(f, project, calls, span, r), GroupsOf(calls), FieldOf(a, GroupsOf(calls) == []))
    {
      RecordAttributeIsUnder(calls, r.attrs, true, a);
      MoreFieldsKeep(front, body, GroupsOf(calls), FieldOf(a, GroupsOf(calls) == []));
    }
    forall k, a | 0 <= k < |calls| && calls[k].Attrs? && a in calls[k].attrs && !a.value.Group?
      ensures IsUnder(Entry(f, project, calls, span, r), GroupsOf(calls[..k]), FieldOf(a, GroupsOf(calls[..k]) == []))
    {
      CallAttributeIsUnder(calls, r.attrs, true, k, a);
      MoreFieldsKeep(front, body, GroupsOf(calls[..k]), FieldOf(a, GroupsOf(calls[..k]) == []));
    }
  }

  // ---------------------------------------------------------------- the span adds three fields

  /** The fields whose keys are not in ks. */
  function Without(fields: seq<Field>, ks: set<string>): seq<Field> {
    if fields == [] then []
    else (if fields[0].key in ks then [] else [fields[0]]) + Without(fields[1..], ks)
  }

  lemma {:induction false} WithoutConcat(a: seq<Field>, b: seq<Field>, ks: set<string>)
    ensures Without(a + b, ks) == Without(a, ks) + Without(b, ks)
  {
    if a == [] {
      assert a + b == b;
    } else {
      assert (a + b)[0] == a[0] && (a + b)[1..] == a[1..] + b;
      WithoutConcat(a[1..], b, ks);
    }
  }

  /** Dropping fields changes nothing exactly when none is dropped. */
  lemma {:induction false} WithoutNothing(fields: seq<Field>, ks: set<string>)
    ensures |Without(fields, ks)| <= |fields|
    ensures Without(fields, ks) == fields <==> forall i :: 0 <= i < |fields| ==> fields[i].key !in ks
  {
    if fields != [] {
      var rest := fields[1..];
      WithoutNothing(rest, ks);
      assert (forall i :: 0 <= i < |fields| ==> fields[i].key !in ks) <==>
             fields[0].key !in ks && (forall i :: 0 <= i < |rest| ==> rest[i].key !in ks) by {
        assert forall i :: 0 <= i < |rest| ==> rest[i] == fields[i + 1];
        assert forall i :: 0 < i < |fields| ==> fields[i] == rest[i - 1];
      }
      if fields[0].key !in ks {
        assert Without(fields, ks)[1..] == Without(rest, ks);
      }
    }
  }

  /** Under a span the entry is the span-free entry and exactly three more top-level fields: the trace, by
      its resource name when a project is known, the span and whether it is sampled. They are the only
      ones of their keys exactly when the first group opened does not take one of them. */
  lemma SpanAddsThreeFields(f: Format, project: string, calls: seq<Call>, span: Span, r: Record)
    ensures var spanned, free := Entry(f, project, calls, Some(span), r), Entry(f, project, calls, None, r);
            |spanned| == |free| + 3 &&
            Field("logging.googleapis.com/trace", Scalar(Text(if project == "" then span.traceId
                                                              else "projects/" + project + "/traces/" + span.traceId))) in spanned &&
            Field("logging.googleapis.com/spanId", Scalar(Text(span.spanId))) in spanned &&
            Field("logging.googleapis.com/trace_sampled", Scalar(Flag(span.sampled))) in spanned &&
            (Without(spanned, TraceKeys) == free <==> !exists key :: key in TraceKeys && GroupNamed(calls, r.attrs, key))
  {
    hide IsReserved, Body, FirstGroup, EmitAll, Replaced, GroupNamed, Without;
    var front, trace, body := EmitAll(Replaced(f, BuiltIns(r))), TraceFields(project, Some(span)), Body(calls, r.attrs, true);
    var spanned, free := Entry(f, project, calls, Some(span), r), Entry(f, project, calls, None, r);
    assert spanned == front + trace + body && free == front + [] + body == front + body;
    WithoutConcat(front + trace, body, TraceKeys);
    WithoutConcat(front, trace, TraceKeys);
    TraceOnly(project, span);
    FrontHasNoTrace(f, r);
    assert Without(spanned, TraceKeys) == front + Without(body, TraceKeys);
    SameFront(front, Without(body, TraceKeys), body);
    BodyHasNoTrace(calls, r.attrs);
    assert spanned[|front|] == trace[0] && spanned[|front| + 1] == trace[1] && spanned[|front| + 2] == trace[2];
  }

  lemma SameFront(front: seq<Field>, a: seq<Field>, b: seq<Field>)
    ensures front + a == front + b <==> a == b
  {
    assert (front + a)[|front|..] == a && (front + b)[|front|..] == b;
  }

  lemma TraceOnly(project: string, span: Span)
    ensures Without(TraceFields(project, Some(span)), TraceKeys) == []
  {
    var t := TraceFields(project, Some(span));
    assert t == [t[0]] + [t[1]] + [t[2]];
    WithoutConcat([t[0]] + [t[1]], [t[2]], TraceKeys);
    WithoutConcat([t[0]], [t[1]], TraceKeys);
    assert [t[0]][1..] == [] && [t[1]][1..] == [] && [t[2]][1..] == [];
  }

  lemma FrontHasNoTrace(f: Format, r: Record)
    ensures var front := EmitAll(Replaced(f, BuiltIns(r))); Without(front, TraceKeys) == front
  {
    hide EmitAll, Replaced, BuiltIns;
    BuiltInFields(f, r);
    var front := EmitAll(Replaced(f, BuiltIns(r)));
    assert KeySourceLocation[24] == 'o' && KeySpanId[24] == 'p' &&
           KeyTrace[23] == 't' && KeyTraceSampled[23] == 't' && KeySourceLocation[23] == 's';
    forall i | 0 <= i < |front| ensures front[i].key !in TraceKeys {
      assert front[i].key in {"time", "severity", "message", KeySourceLocation};
    }
    WithoutNothing(front, TraceKeys);
  }

  lemma BodyHasNoTrace(calls: seq<Call>, attrs: seq<Attr>)
    ensures var body := Body(calls, attrs, true);
            Without(body, TraceKeys) == body <==> !exists key :: key in TraceKeys && GroupNamed(calls, attrs, key)
  {
    hide IsReserved, Body, FirstGroup, GroupNamed, Without;
    var body := Body(calls, attrs, true);
    WithoutNothing(body, TraceKeys);
    forall key | key in TraceKeys ensures HasKey(body, key) <==> GroupNamed(calls, attrs, key) {
      AttributesTakeNoWrittenKey(calls, attrs, key);
    }
    if i :| 0 <= i < |body| && body[i].key in TraceKeys { assert HasKey(body, body[i].key); }
  }
}
