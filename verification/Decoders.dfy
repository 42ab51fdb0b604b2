/** The decoder language of the file format: small programs that read a payload and emit samples.
    The repository writes such programs; a reader of the file runs them. */
module Decoders {
  import opened Bytes
  import opened BlockLayer

  datatype Expr =
    | Num(n: int)
    | Var(name: string)
    | Add(left: Expr, right: Expr)
    | Sub(left: Expr, right: Expr)
    | Mul(left: Expr, right: Expr)

  datatype Kind = UInt | Int | Float

  datatype Stmt =
    | Read(v: string, kind: Kind, bits: nat, endian: Endian, expected: Option<Expr>)
    | ReadRaw(v: string, octets: Expr, group: Option<Expr>)
    | Seek(offset: Expr)
    | Sample
    | Loop(counter: Option<string>, start: Expr, increment: Expr, end: Option<Expr>, body: seq<Stmt>)

  /** A floating-point number is kept as its bit pattern. */
  datatype Value = IntValue(i: int) | FloatValue(bits: nat, pattern: nat) | RawValue(bytes: seq<Byte>)

  /** The cursor, the variables, the samples emitted and the payloads handed on to other groups. */
  datatype Machine = Machine(pos: nat, vars: map<string, Value>, samples: seq<map<string, Value>>, routed: seq<Block>)

  const START := Machine(0, map[], [], [])

  function Eval(e: Expr, vars: map<string, Value>): Option<int> {
    match e
    case Num(n) => Some(n)
    case Var(name) => if name in vars && vars[name].IntValue? then Some(vars[name].i) else None
    case Add(l, r) =>
      var a, b := Eval(l, vars), Eval(r, vars);
      if a.Some? && b.Some? then Some(a.value + b.value) else None
    case Sub(l, r) =>
      var a, b := Eval(l, vars), Eval(r, vars);
      if a.Some? && b.Some? then Some(a.value - b.value) else None
    case Mul(l, r) =>
      var a, b := Eval(l, vars), Eval(r, vars);
      if a.Some? && b.Some? then Some(a.value * b.value) else None
  }

  /** The value a typed read takes from its bytes. */
  function Typed(kind: Kind, endian: Endian, bytes: seq<Byte>): Value {
    match kind
    case UInt => IntValue(Decode(endian, bytes))
    case Int => IntValue(Signed(Decode(endian, bytes), |bytes|))
    case Float => FloatValue(8 * |bytes|, Decode(endian, bytes))
  }

  /** One statement. None stands for a payload the decoder does not accept. */
  function Exec(s: Stmt, payload: seq<Byte>, m: Machine): (r: Option<Machine>)
    decreases s, 0, 0
  {
    match s
    case Read(v, kind, bits, endian, expected) =>
      if bits % 8 != 0 || m.pos + bits / 8 > |payload| then None
      else
        var value := Typed(kind, endian, payload[m.pos..m.pos + bits / 8]);
        if expected.Some? && (!value.IntValue? || Eval(expected.value, m.vars) != Some(value.i)) then None
        else Some(m.(pos := m.pos + bits / 8, vars := m.vars[v := value]))
    case ReadRaw(v, octets, group) =>
      var n := Eval(octets, m.vars);
      if n.None? || n.value < 0 || m.pos + n.value > |payload| then None
      else
        var bytes := payload[m.pos..m.pos + n.value];
        var after := m.(pos := m.pos + n.value, vars := m.vars[v := RawValue(bytes)]);
        if group.None? then Some(after)
        else
          var g := Eval(group.value, m.vars);
          if g.None? || g.value < 0 then None else Some(after.(routed := m.routed + [Block(g.value, bytes)]))
    case Seek(offset) =>
      var n := Eval(offset, m.vars);
      if n.None? || n.value < 0 || n.value > |payload| then None else Some(m.(pos := n.value))
    case Sample => Some(m.(samples := m.samples + [m.vars]))
    case Loop(counter, start, increment, end, body) =>
      var first, step := Eval(start, m.vars), Eval(increment, m.vars);
      var last := if end.Some? then Eval(end.value, m.vars) else None;
      if first.None? || step.None? || (end.Some? && last.None?) then None
      else Iterate(counter, first.value, step.value, last, body, payload, m)
  }

  function ExecAll(ss: seq<Stmt>, payload: seq<Byte>, m: Machine): (r: Option<Machine>)
    decreases ss, 1, 0
  {
    if ss == [] then Some(m)
    else
      var next := Exec(ss[0], payload, m);
      if next.None? then None else ExecAll(ss[1..], payload, next.value)
  }

  function Enter(counter: Option<string>, i: int, m: Machine): Machine {
    if counter.Some? then m.(vars := m.vars[counter.value := IntValue(i)]) else m
  }

  /** The iterations of a loop from counter value i on: up to an exclusive end, or while the payload
      lasts when there is none. A turn that makes no progress towards that is not accepted. */
  function Iterate(counter: Option<string>, i: int, step: int, end: Option<int>, body: seq<Stmt>,
                   payload: seq<Byte>, m: Machine): (r: Option<Machine>)
    decreases body, 2, if end.Some? then (if end.value > i then end.value - i else 0)
                       else (if |payload| > m.pos then |payload| - m.pos else 0)
  {
    if (if end.Some? then i >= end.value else m.pos >= |payload|) then Some(m)
    else
      var next := ExecAll(body, payload, Enter(counter, i, m));
      if next.None? then None
      else if (if end.Some? then step <= 0 else next.value.pos <= m.pos) then None
      else Iterate(counter, i + step, step, end, body, payload, next.value)
  }

  function RunDecoder(program: seq<Stmt>, payload: seq<Byte>): Option<Machine> {
    ExecAll(program, payload, START)
  }

  /** The columns of a channel read from one emitted sample. */
  function Row(sample: map<string, Value>, columns: seq<string>): Option<seq<Value>> {
    if columns == [] then Some([])
    else
      var rest := Row(sample, columns[1..]);
      if columns[0] !in sample || rest.None? then None else Some([sample[columns[0]]] + rest.value)
  }

  function Rows(samples: seq<map<string, Value>>, columns: seq<string>): Option<seq<seq<Value>>> {
    if samples == [] then Some([])
    else
      var first, rest := Row(samples[0], columns), Rows(samples[1..], columns);
      if first.None? || rest.None? then None else Some([first.value] + rest.value)
  }

  lemma ExecAllStep(s: Stmt, ss: seq<Stmt>, payload: seq<Byte>, m: Machine)
    ensures ExecAll([s] + ss, payload, m) ==
            var next := Exec(s, payload, m); if next.None? then None else ExecAll(ss, payload, next.value)
  {
    assert ([s] + ss)[1..] == ss;
  }

  lemma ExecAllAt(ss: seq<Stmt>, k: nat, payload: seq<Byte>, m: Machine)
    requires k < |ss|
    ensures ExecAll(ss[k..], payload, m) ==
            var next := Exec(ss[k], payload, m); if next.None? then None else ExecAll(ss[k + 1..], payload, next.value)
  {
    assert ss[k..][1..] == ss[k + 1..];
  }

  lemma {:induction false} ExecAllConcat(a: seq<Stmt>, b: seq<Stmt>, payload: seq<Byte>, m: Machine)
    ensures ExecAll(a + b, payload, m) ==
            var mid := ExecAll(a, payload, m); if mid.None? then None else ExecAll(b, payload, mid.value)
    decreases |a|
  {
    if a == [] {
      assert a + b == b;
    } else {
      assert (a + b)[1..] == a[1..] + b;
      var next := Exec(a[0], payload, m);
      if next.Some? {
        ExecAllConcat(a[1..], b, payload, next.value);
      }
    }
  }

  lemma ExecTypedRead(s: Stmt, payload: seq<Byte>, m: Machine)
    requires s.Read? && s.expected == None && s.bits in {8, 16, 32, 64}
    ensures Exec(s, payload, m) ==
            if m.pos + s.bits / 8 > |payload| then None
            else Some(m.(pos := m.pos + s.bits / 8,
                         vars := m.vars[s.v := Typed(s.kind, s.endian, payload[m.pos..m.pos + s.bits / 8])]))
  {
    assert s.bits % 8 == 0;
  }

  lemma ExecEnd(ss: seq<Stmt>, payload: seq<Byte>, m: Machine)
    ensures ExecAll(ss[|ss|..], payload, m) == Some(m)
  {
    assert ss[|ss|..] == [];
  }

  // ----- Nothing emitted is ever taken back -----

  ghost predicate Extends(m: Machine, r: Option<Machine>) {
    r.Some? ==> m.samples <= r.value.samples && m.routed <= r.value.routed
  }

  lemma {:induction false} ExecExtends(s: Stmt, payload: seq<Byte>, m: Machine)
    ensures Extends(m, Exec(s, payload, m))
    decreases s, 0, 0
  {
    if s.Loop? {
      var first, step := Eval(s.start, m.vars), Eval(s.increment, m.vars);
      var last := if s.end.Some? then Eval(s.end.value, m.vars) else None;
      if first.Some? && step.Some? && (s.end.Some? ==> last.Some?) {
        IterateExtends(s.counter, first.value, step.value, last, s.body, payload, m);
      }
    }
  }

  lemma {:induction false} ExecAllExtends(ss: seq<Stmt>, payload: seq<Byte>, m: Machine)
    ensures Extends(m, ExecAll(ss, payload, m))
    decreases ss, 1, 0
  {
    if ss != [] {
      ExecExtends(ss[0], payload, m);
      var next := Exec(ss[0], payload, m);
      if next.Some? {
        ExecAllExtends(ss[1..], payload, next.value);
      }
    }
  }

  lemma {:induction false} IterateExtends(counter: Option<string>, i: int, step: int, end: Option<int>,
                                          body: seq<Stmt>, payload: seq<Byte>, m: Machine)
    ensures Extends(m, Iterate(counter, i, step, end, body, payload, m))
    decreases body, 2, if end.Some? then (if end.value > i then end.value - i else 0)
                       else (if |payload| > m.pos then |payload| - m.pos else 0)
  {
    if !(if end.Some? then i >= end.value else m.pos >= |payload|) {
      ExecAllExtends(body, payload, Enter(counter, i, m));
      var next := ExecAll(body, payload, Enter(counter, i, m));
      if next.Some? && !(if end.Some? then step <= 0 else next.value.pos <= m.pos) {
        IterateExtends(counter, i + step, step, end, body, payload, next.value);
      }
    }
  }
}
