/** The CAN decoder run on the blocks the handler writes. */
module CanCorrect {
  import opened Bytes
  import opened Decimal
  import opened Decoders
  import opened Descriptors
  import opened Can

  /** The payload of a data block: the count, all domain values, all messages. */
  function Payload(native: Endian, count: nat, domain: seq<Byte>, messages: seq<Byte>): seq<Byte> {
    Encode(native, count % 0x1_0000_0000, 4) + domain + messages
  }

  /** The width-byte item number i of a packed array. */
  function Item(bytes: seq<Byte>, width: nat, i: nat): seq<Byte>
    requires (i + 1) * width <= |bytes|
  {
    assert i * width + width == (i + 1) * width;
    bytes[i * width..i * width + width]
  }

  /** The bytes the fields of message i are read from: the messages are 69 bytes apart, however many bytes
      the fields take up. */
  function FieldBytes(fields: seq<DataDescriptor>, messages: seq<Byte>, i: nat): (r: seq<Byte>)
    requires GoodFields(fields) && i * MESSAGE + TotalWidth(fields) <= |messages|
    ensures |r| == TotalWidth(fields)
  {
    messages[i * MESSAGE..i * MESSAGE + TotalWidth(fields)]
  }

  /** The fields of the last message end inside the data. */
  predicate Room(fields: seq<DataDescriptor>, messages: seq<Byte>, count: nat)
    requires GoodFields(fields)
  {
    count == 0 || (count - 1) * MESSAGE + TotalWidth(fields) <= |messages|
  }

  lemma RoomForEach(fields: seq<DataDescriptor>, messages: seq<Byte>, count: nat, i: nat)
    requires GoodFields(fields) && Room(fields, messages, count) && i < count
    ensures i * MESSAGE + TotalWidth(fields) <= |messages|
  {
    Below(i, count - 1, MESSAGE);
  }

  lemma RoomInMessages(fields: seq<DataDescriptor>, messages: seq<Byte>, count: nat)
    requires GoodFields(fields) && TotalWidth(fields) <= MESSAGE && count * MESSAGE <= |messages|
    ensures Room(fields, messages, count)
  {
    if count > 0 {
      assert (count - 1) * MESSAGE + MESSAGE == count * MESSAGE;
    }
  }

  /** Sample i: domain value i next to the fields of message i. */
  function SampleOf(kind: Kind, native: Endian, width: nat, fields: seq<DataDescriptor>,
                    domain: seq<Byte>, messages: seq<Byte>, i: nat): seq<Value>
    requires GoodFields(fields)
    requires (i + 1) * width <= |domain| && i * MESSAGE + TotalWidth(fields) <= |messages|
  {
    [Typed(kind, native, Item(domain, width, i))] + FieldValues(fields, native, FieldBytes(fields, messages, i))
  }

  /** Samples i .. count - 1. */
  function SamplesFrom(kind: Kind, native: Endian, width: nat, fields: seq<DataDescriptor>,
                       domain: seq<Byte>, messages: seq<Byte>, i: nat, count: nat): (r: seq<seq<Value>>)
    requires GoodFields(fields) && i <= count
    requires count * width <= |domain| && Room(fields, messages, count)
    ensures |r| == count - i
    decreases count - i
  {
    if i == count then []
    else
      Below(i + 1, count, width);
      RoomForEach(fields, messages, count, i);
      [SampleOf(kind, native, width, fields, domain, messages, i)]
      + SamplesFrom(kind, native, width, fields, domain, messages, i + 1, count)
  }

  lemma Below(i: nat, n: nat, w: nat)
    requires i <= n
    ensures i * w <= n * w
  {
    assert n * w == i * w + (n - i) * w;
    assert (n - i) * w >= 0;
  }

  // ----- Reading the fields -----

  ghost predicate IsColumn(x: string, k: nat) {
    exists j: nat :: j >= k && x == Variable(j)
  }

  lemma VariableInjective(a: nat, b: nat)
    requires Variable(a) == Variable(b)
    ensures a == b
  {
    assert Variable(a)[1..] == ToDecimal(a) && Variable(b)[1..] == ToDecimal(b);
    DecimalInjective(a, b);
  }

  lemma {:induction false} OneField(f: DataDescriptor, k: nat, native: Endian, payload: seq<Byte>, m: Machine)
    requires GoodField(f) && m.pos + Width(f) <= |payload|
    ensures Exec(FieldStmt(f, k, native), payload, m)
         == Some(m.(pos := m.pos + Width(f),
                    vars := m.vars[Variable(k) := FieldValue(f, native, payload[m.pos..m.pos + Width(f)])]))
  {
    if !IsRawField(f) {
      ExecTypedRead(FieldStmt(f, k, native), payload, m);
    }
  }

  /** Variables other than columns from k on are as before. */
  ghost predicate Keeps(before: map<string, Value>, after: map<string, Value>, k: nat) {
    forall x :: x in before && !IsColumn(x, k) ==> x in after && after[x] == before[x]
  }

  lemma {:induction false} KeepsStep(before: map<string, Value>, k: nat, value: Value, after: map<string, Value>)
    requires Keeps(before[Variable(k) := value], after, k + 1)
    ensures Keeps(before, after, k)
    ensures Variable(k) in after && after[Variable(k)] == value
  {
    assert !IsColumn(Variable(k), k + 1) by {
      forall j: nat | j >= k + 1 ensures Variable(k) != Variable(j) {
        if Variable(k) == Variable(j) {
          VariableInjective(k, j);
        }
      }
    }
    forall x | x in before && !IsColumn(x, k) ensures x in after && after[x] == before[x] {
      assert x != Variable(k);
      assert !IsColumn(x, k + 1);
    }
  }

  /** So many columns from dimension k on hold these values; the cursor moved, nothing else changed. */
  ghost predicate HasRead(k: nat, count: nat, width: nat, values: seq<Value>, m: Machine, r: Option<Machine>) {
    && r.Some?
    && r.value == m.(pos := m.pos + width, vars := r.value.vars)
    && Keeps(m.vars, r.value.vars, k)
    && Row(r.value.vars, Columns(k, count)) == Some(values)
  }

  lemma HasReadStep(k: nat, w: nat, value: Value, count: nat, width: nat, values: seq<Value>, m: Machine,
                    r: Option<Machine>)
    requires HasRead(k + 1, count, width, values, m.(pos := m.pos + w, vars := m.vars[Variable(k) := value]), r)
    ensures HasRead(k, count + 1, w + width, [value] + values, m, r)
  {
    KeepsStep(m.vars, k, value, r.value.vars);
    RowCons(r.value.vars, Variable(k), Columns(k + 1, count));
  }

  /** The values of all fields when they are read at a place in the payload. */
  function ValuesAt(fields: seq<DataDescriptor>, native: Endian, payload: seq<Byte>, pos: nat): seq<Value>
    requires GoodFields(fields) && pos + TotalWidth(fields) <= |payload|
    decreases |fields|
  {
    if fields == [] then []
    else
      var w := Width(fields[0]);
      [FieldValue(fields[0], native, payload[pos..pos + w])] + ValuesAt(fields[1..], native, payload, pos + w)
  }

  lemma CutMessage(payload: seq<Byte>, pos: nat, message: seq<Byte>, w: nat)
    requires pos + |message| <= |payload| && payload[pos..pos + |message|] == message && w <= |message|
    ensures message[..w] == payload[pos..pos + w]
    ensures payload[pos + w..pos + w + |message[w..]|] == message[w..]
  {
  }

  lemma {:induction false} ValuesAtAre(fields: seq<DataDescriptor>, native: Endian, payload: seq<Byte>, pos: nat,
                                       message: seq<Byte>)
    requires GoodFields(fields) && TotalWidth(fields) <= |message| && pos + |message| <= |payload|
    requires payload[pos..pos + |message|] == message
    ensures ValuesAt(fields, native, payload, pos) == FieldValues(fields, native, message)
    decreases |fields|
  {
    hide FieldValue, Width;
    if fields != [] {
      var w := Width(fields[0]);
      CutMessage(payload, pos, message, w);
      ValuesAtAre(fields[1..], native, payload, pos + w, message[w..]);
    }
  }

  /** Where the machine stands after the first field. */
  function AfterField(f: DataDescriptor, k: nat, native: Endian, payload: seq<Byte>, m: Machine): Machine
    requires GoodField(f) && m.pos + Width(f) <= |payload|
  {
    m.(pos := m.pos + Width(f), vars := m.vars[Variable(k) := FieldValue(f, native, payload[m.pos..m.pos + Width(f)])])
  }

  lemma {:induction false} FieldsCons(fields: seq<DataDescriptor>, k: nat, native: Endian, payload: seq<Byte>,
                                      m: Machine)
    requires GoodFields(fields) && fields != [] && m.pos + TotalWidth(fields) <= |payload|
    ensures var next := AfterField(fields[0], k, native, payload, m);
            && ExecAll(FieldStmts(fields, k, native), payload, m)
                == ExecAll(FieldStmts(fields[1..], k + 1, native), payload, next)
            && ValuesAt(fields, native, payload, m.pos)
               == [FieldValue(fields[0], native, payload[m.pos..next.pos])]
                   + ValuesAt(fields[1..], native, payload, next.pos)
  {
    OneField(fields[0], k, native, payload, m);
    ExecAllStep(FieldStmt(fields[0], k, native), FieldStmts(fields[1..], k + 1, native), payload, m);
  }

  lemma NothingRead(k: nat, m: Machine)
    ensures HasRead(k, 0, 0, [], m, Some(m))
  {
  }

  lemma HasReadNext(k: nat, w: nat, value: Value, count: nat, width: nat, values: seq<Value>, m: Machine, next: Machine,
                    r: Option<Machine>,
                    all: seq<Value>)
    requires HasRead(k + 1, count, width, values, next, r)
    requires next == m.(pos := m.pos + w, vars := m.vars[Variable(k) := value])
    requires all == [value] + values
    ensures HasRead(k, count + 1, w + width, all, m, r)
  {
    HasReadStep(k, w, value, count, width, values, m, r);
  }

  lemma NoStatements(payload: seq<Byte>, m: Machine)
    ensures ExecAll([], payload, m) == Some(m)
  {
  }

  lemma {:induction false} FieldsTurn(fields: seq<DataDescriptor>, k: nat, native: Endian, payload: seq<Byte>,
                                      m: Machine)
    requires GoodFields(fields) && m.pos + TotalWidth(fields) <= |payload|
    ensures HasRead(k, |fields|, TotalWidth(fields), ValuesAt(fields, native, payload, m.pos), m,
                    ExecAll(FieldStmts(fields, k, native), payload, m))
    decreases |fields|
  {
    hide HasRead, FieldValue, FieldStmt, ExecAll;
    if fields == [] {
      NothingRead(k, m);
      NoStatements(payload, m);
    } else {
      var rest, next := fields[1..], AfterField(fields[0], k, native, payload, m);
      var r := ExecAll(FieldStmts(rest, k + 1, native), payload, next);
      FieldsCons(fields, k, native, payload, m);
      FieldsTurn(rest, k + 1, native, payload, next);
      HasReadNext(k, Width(fields[0]), FieldValue(fields[0], native, payload[m.pos..next.pos]), |rest|,
                  TotalWidth(rest),
                  ValuesAt(rest, native, payload, next.pos), m, next, r, ValuesAt(fields, native, payload, m.pos));
    }
  }

  lemma OneFieldFails(f: DataDescriptor, k: nat, native: Endian, payload: seq<Byte>, m: Machine)
    requires GoodField(f) && m.pos + Width(f) > |payload|
    ensures Exec(FieldStmt(f, k, native), payload, m) == None
  {
    if !IsRawField(f) {
      ExecTypedRead(FieldStmt(f, k, native), payload, m);
    }
  }

  /** Fields that run past the end of the payload cannot be read. */
  lemma {:induction false} FieldsFail(fields: seq<DataDescriptor>, k: nat, native: Endian, payload: seq<Byte>,
                                      m: Machine)
    requires GoodFields(fields) && m.pos <= |payload| < m.pos + TotalWidth(fields)
    ensures ExecAll(FieldStmts(fields, k, native), payload, m) == None
    decreases |fields|
  {
    hide FieldStmt, FieldValue, Exec;
    ExecAllStep(FieldStmt(fields[0], k, native), FieldStmts(fields[1..], k + 1, native), payload, m);
    if m.pos + Width(fields[0]) > |payload| {
      OneFieldFails(fields[0], k, native, payload, m);
    } else {
      OneField(fields[0], k, native, payload, m);
      FieldsFail(fields[1..], k + 1, native, payload, AfterField(fields[0], k, native, payload, m));
    }
  }

  lemma RowCons(sample: map<string, Value>, column: string, columns: seq<string>)
    ensures Row(sample, [column] + columns)
         == var rest := Row(sample, columns);
            if column !in sample || rest.None? then None else Some([sample[column]] + rest.value)
  {
    assert ([column] + columns)[1..] == columns;
  }

  // ----- One turn of the loop -----

  /** Where the cursor goes: the offsets the two seeks compute. */
  lemma Offsets(width: nat, n: int, i: int, vars: map<string, Value>)
    requires "n" in vars && vars["n"] == IntValue(n) && "i" in vars && vars["i"] == IntValue(i)
    ensures Eval(MessageOffset(width), vars) == Some(4 + width * n + MESSAGE * i)
    ensures Eval(NextOffset(width), vars) == Some(4 + width + width * i)
  {
    assert Eval(Mul(Num(width), Var("n")), vars) == Some(width * n);
    assert Eval(Mul(Num(width), Var("i")), vars) == Some(width * i);
    assert Eval(Mul(Num(MESSAGE), Var("i")), vars) == Some(MESSAGE * i);
    assert Eval(Add(Num(4), Mul(Num(width), Var("n"))), vars) == Some(4 + width * n);
  }

  lemma NotColumns(k: nat)
    requires k >= 1
    ensures !IsColumn("n", k) && !IsColumn("i", k) && !IsColumn("v0", k)
  {
    forall j: nat | j >= k ensures "n" != Variable(j) && "i" != Variable(j) && "v0" != Variable(j) {
      assert Variable(j)[0] == 'v';
      assert Variable(0) == "v0";
      if Variable(j) == Variable(0) {
        VariableInjective(j, 0);
      }
    }
  }

  /** The two statements in front of the fields. */
  lemma HeadTurn(body: seq<Stmt>, kind: Kind, bits: nat, native: Endian, n: nat, i: nat, payload: seq<Byte>, m: Machine)
    requires bits in {8, 16, 32, 64}
    requires body == [Read("v0", kind, bits, native, None), Seek(MessageOffset(bits / 8))]
    requires "n" in m.vars && m.vars["n"] == IntValue(n) && "i" in m.vars && m.vars["i"] == IntValue(i)
    requires m.pos + bits / 8 <= |payload| && 4 + (bits / 8) * n + MESSAGE * i <= |payload|
    ensures ExecAll(body, payload, m)
         == Some(m.(pos := 4 + (bits / 8) * n + MESSAGE * i,
                    vars := m.vars["v0" := Typed(kind, native, payload[m.pos..m.pos + bits / 8])]))
  {
    hide ExecAll, Typed, MessageOffset;
    var next := m.(pos := m.pos + bits / 8,
                   vars := m.vars["v0" := Typed(kind, native, payload[m.pos..m.pos + bits / 8])]);
    assert body[0..] == body;
    ExecAllAt(body, 0, payload, m);
    ExecTypedRead(body[0], payload, m);
    ExecAllAt(body, 1, payload, next);
    Offsets(bits / 8, n, i, next.vars);
    ExecEnd(body, payload, next.(pos := 4 + (bits / 8) * n + MESSAGE * i));
  }

  /** The two statements after the fields. */
  lemma TailTurn(body: seq<Stmt>, width: nat, n: nat, i: nat, payload: seq<Byte>, m: Machine)
    requires body == [Sample, Seek(NextOffset(width))]
    requires "n" in m.vars && m.vars["n"] == IntValue(n) && "i" in m.vars && m.vars["i"] == IntValue(i)
    requires 4 + width + width * i <= |payload|
    ensures ExecAll(body, payload, m) == Some(m.(pos := 4 + width + width * i, samples := m.samples + [m.vars]))
  {
    var next := m.(samples := m.samples + [m.vars]);
    assert body[0..] == body;
    ExecAllAt(body, 0, payload, m);
    ExecAllAt(body, 1, payload, next);
    Offsets(width, n, i, next.vars);
    ExecEnd(body, payload, next.(pos := 4 + width + width * i));
  }

  /** What the loop needs to find in the payload, and where. */
  ghost predicate Layout(payload: seq<Byte>, width: nat, count: nat, domain: seq<Byte>, messages: seq<Byte>) {
    && |domain| == count * width && count * MESSAGE <= |messages|
    && |payload| == 4 + |domain| + |messages|
    && payload[4..4 + |domain|] == domain
    && payload[4 + |domain|..] == messages
  }

  /** The places turn i goes to, and what is there. */
  lemma {:induction false} TurnRanges(payload: seq<Byte>, width: nat, count: nat, domain: seq<Byte>,
                                      messages: seq<Byte>, i: nat, total: nat)
    requires Layout(payload, width, count, domain, messages) && i < count
    ensures (i + 1) * width <= |domain|
    ensures 4 + width + width * i <= 4 + width * count <= 4 + width * count + MESSAGE * i <= |payload|
    ensures 4 + width * count + MESSAGE * i + total <= |payload| <==> i * MESSAGE + total <= |messages|
    ensures payload[4 + width * i..4 + width * i + width] == Item(domain, width, i)
    ensures i * MESSAGE + total <= |messages| ==>
              payload[4 + width * count + MESSAGE * i..4 + width * count + MESSAGE * i + total]
              == messages[i * MESSAGE..i * MESSAGE + total]
  {
    Below(i + 1, count, width);
    Below(i + 1, count, MESSAGE);
    assert (i + 1) * width == i * width + width;
    assert i * width == width * i && count * width == width * count;
    DoubleSlice(payload, 4, |domain|, i * width, width);
    assert payload[4 + |domain|..4 + |domain| + |messages|] == messages;
    if i * MESSAGE + total <= |messages| {
      DoubleSlice(payload, 4 + |domain|, |messages|, i * MESSAGE, total);
    }
  }

  lemma DoubleSlice(payload: seq<Byte>, start: nat, length: nat, from: nat, size: nat)
    requires start + length <= |payload| && from + size <= length
    ensures payload[start..start + length][from..from + size] == payload[start + from..start + from + size]
  {
    var a := payload[start..start + length][from..from + size];
    var b := payload[start + from..start + from + size];
    assert |a| == |b|;
    forall k | 0 <= k < |a| ensures a[k] == b[k] {
      assert a[k] == payload[start..start + length][from + k];
    }
  }

  /** The body of one turn, entered with the cursor at domain value i. */
  lemma {:induction false} BodyTurn(body: seq<Stmt>, kind: Kind, bits: nat, fields: seq<DataDescriptor>,
                                    native: Endian, payload: seq<Byte>, count: nat, domain: seq<Byte>,
                                    messages: seq<Byte>, i: nat, m: Machine)
    requires GoodFields(fields) && bits in {8, 16, 32, 64}
    requires IsBody(body, kind, bits, fields, native)
    requires Layout(payload, bits / 8, count, domain, messages) && i < count
    requires i * MESSAGE + TotalWidth(fields) <= |messages|
    requires m.pos == 4 + (bits / 8) * i
    requires "n" in m.vars && m.vars["n"] == IntValue(count) && "i" in m.vars && m.vars["i"] == IntValue(i)
    ensures (i + 1) * (bits / 8) <= |domain|
    ensures var r := ExecAll(body, payload, m);
            && r.Some?
            && r.value.pos == 4 + (bits / 8) * (i + 1)
            && "n" in r.value.vars && r.value.vars["n"] == IntValue(count)
            && |r.value.samples| == |m.samples| + 1 && r.value.samples[..|m.samples|] == m.samples
            && Row(r.value.samples[|m.samples|], Columns(0, 1 + |fields|))
               == Some(SampleOf(kind, native, bits / 8, fields, domain, messages, i))
  {
    hide Layout, Item, FieldBytes, TotalWidth, Row, Columns, ExecAll, Typed, ValuesAt, MessageOffset, NextOffset,
      SampleOf;
    var width := bits / 8;
    TurnRanges(payload, width, count, domain, messages, i, TotalWidth(fields));
    var head := [Read("v0", kind, bits, native, None), Seek(MessageOffset(width))];
    var fieldReads := FieldStmts(fields, 1, native);
    var tail := [Sample, Seek(NextOffset(width))];
    HeadTurn(head, kind, bits, native, count, i, payload, m);
    var m1 := ExecAll(head, payload, m).value;
    FieldsTurn(fields, 1, native, payload, m1);
    var m2 := ExecAll(fieldReads, payload, m1).value;
    NotColumns(1);
    TailTurn(tail, width, count, i, payload, m2);
    ExecAllConcat(head, fieldReads, payload, m);
    ExecAllConcat(head + fieldReads, tail, payload, m);
    assert width + width * i == width * (i + 1);
    assert m1.vars == m.vars["v0" := Typed(kind, native, payload[m.pos..m.pos + width])];
    assert m2.vars["n"] == IntValue(count) && m2.vars["i"] == IntValue(i);
    RowOfTurn(kind, bits, fields, native, payload, count, domain, messages, i, m, m1, m2);
    assert ExecAll(body, payload, m) == Some(m2.(pos := 4 + width + width * i, samples := m.samples + [m2.vars]));
  }

  /** A turn whose fields run past the end of the payload. */
  lemma {:induction false} BodyFails(body: seq<Stmt>, kind: Kind, bits: nat, fields: seq<DataDescriptor>,
                                     native: Endian, payload: seq<Byte>, count: nat, domain: seq<Byte>,
                                     messages: seq<Byte>, i: nat, m: Machine)
    requires GoodFields(fields) && bits in {8, 16, 32, 64}
    requires IsBody(body, kind, bits, fields, native)
    requires Layout(payload, bits / 8, count, domain, messages) && i < count
    requires i * MESSAGE + TotalWidth(fields) > |messages|
    requires m.pos == 4 + (bits / 8) * i
    requires "n" in m.vars && m.vars["n"] == IntValue(count) && "i" in m.vars && m.vars["i"] == IntValue(i)
    ensures ExecAll(body, payload, m) == None
  {
    var width := bits / 8;
    TurnRanges(payload, width, count, domain, messages, i, TotalWidth(fields));
    var head := [Read("v0", kind, bits, native, None), Seek(MessageOffset(width))];
    var fieldReads := FieldStmts(fields, 1, native);
    HeadTurn(head, kind, bits, native, count, i, payload, m);
    FieldsFail(fields, 1, native, payload, ExecAll(head, payload, m).value);
    ExecAllConcat(head, fieldReads, payload, m);
    ExecAllConcat(head + fieldReads, [Sample, Seek(NextOffset(width))], payload, m);
  }

  /** The column read before the fields goes in front of theirs. */
  lemma RowWithDomain(count: nat, width: nat, values: seq<Value>, m1: Machine, m2: Machine)
    requires HasRead(1, count, width, values, m1, Some(m2)) && "v0" in m1.vars
    ensures Row(m2.vars, Columns(0, 1 + count)) == Some([m1.vars["v0"]] + values)
  {
    NotColumns(1);
    assert Variable(0) == "v0";
    RowCons(m2.vars, "v0", Columns(1, count));
  }

  lemma {:induction false} RowOfMessage(fields: seq<DataDescriptor>, native: Endian, payload: seq<Byte>,
                                        message: seq<Byte>, m1: Machine, m2: Machine)
    requires GoodFields(fields) && TotalWidth(fields) <= |message| && m1.pos + |message| <= |payload|
    requires payload[m1.pos..m1.pos + |message|] == message && "v0" in m1.vars
    requires HasRead(1, |fields|, TotalWidth(fields), ValuesAt(fields, native, payload, m1.pos), m1, Some(m2))
    ensures Row(m2.vars, Columns(0, 1 + |fields|)) == Some([m1.vars["v0"]] + FieldValues(fields, native, message))
  {
    RowWithDomain(|fields|, TotalWidth(fields), ValuesAt(fields, native, payload, m1.pos), m1, m2);
    ValuesAtAre(fields, native, payload, m1.pos, message);
  }

  lemma {:induction false} RowOfTurn(kind: Kind, bits: nat, fields: seq<DataDescriptor>, native: Endian,
                                     payload: seq<Byte>, count: nat, domain: seq<Byte>, messages: seq<Byte>, i: nat,
                                     m: Machine, m1: Machine, m2: Machine)
    requires GoodFields(fields) && bits in {8, 16, 32, 64}
    requires Layout(payload, bits / 8, count, domain, messages) && i < count
    requires i * MESSAGE + TotalWidth(fields) <= |messages|
    requires m.pos == 4 + (bits / 8) * i && m.pos + bits / 8 <= |payload|
    requires m1.pos == 4 + (bits / 8) * count + MESSAGE * i && m1.pos + TotalWidth(fields) <= |payload|
    requires m1.vars == m.vars["v0" := Typed(kind, native, payload[m.pos..m.pos + bits / 8])]
    requires HasRead(1, |fields|, TotalWidth(fields), ValuesAt(fields, native, payload, m1.pos), m1, Some(m2))
    ensures (i + 1) * (bits / 8) <= |domain|
    ensures Row(m2.vars, Columns(0, 1 + |fields|))
            == Some(SampleOf(kind, native, bits / 8, fields, domain, messages, i))
  {
    hide Layout, Item, Row, Columns, HasRead, FieldValues, ValuesAt, TotalWidth;
    TurnRanges(payload, bits / 8, count, domain, messages, i, TotalWidth(fields));
    var width := bits / 8;
    assert m.pos == 4 + width * i && m1.pos == 4 + width * count + MESSAGE * i;
    RowOfMessage(fields, native, payload, FieldBytes(fields, messages, i), m1, m2);
  }

  // ----- The whole loop -----

  lemma RowsStep(before: seq<map<string, Value>>, after: seq<map<string, Value>>, columns: seq<string>)
    requires |before| < |after|
    ensures Rows(after[|before|..], columns)
         == var first, rest := Row(after[|before|], columns), Rows(after[|before| + 1..], columns);
            if first.None? || rest.None? then None else Some([first.value] + rest.value)
  {
    assert after[|before|..][0] == after[|before|] && after[|before|..][1..] == after[|before| + 1..];
  }

  lemma IterateTurn(counter: Option<string>, i: int, end: int, body: seq<Stmt>, payload: seq<Byte>, m: Machine)
    requires i < end && ExecAll(body, payload, Enter(counter, i, m)).Some?
    ensures Iterate(counter, i, 1, Some(end), body, payload, m)
         == Iterate(counter, i + 1, 1, Some(end), body, payload, ExecAll(body, payload, Enter(counter, i, m)).value)
  {
  }

  /** The remaining turns, entered with the cursor at domain value i. */
  lemma {:induction false} CanLoop(body: seq<Stmt>, kind: Kind, bits: nat, fields: seq<DataDescriptor>,
                                   native: Endian, payload: seq<Byte>, count: nat, domain: seq<Byte>,
                                   messages: seq<Byte>, i: nat, m: Machine)
    requires GoodFields(fields) && bits in {8, 16, 32, 64}
    requires IsBody(body, kind, bits, fields, native)
    requires Layout(payload, bits / 8, count, domain, messages) && i <= count && Room(fields, messages, count)
    requires m.pos == 4 + (bits / 8) * i && "n" in m.vars && m.vars["n"] == IntValue(count)
    ensures count * (bits / 8) <= |domain|
    ensures var r := Iterate(Some("i"), i, 1, Some(count), body, payload, m);
            && r.Some? && |m.samples| <= |r.value.samples| && r.value.samples[..|m.samples|] == m.samples
            && Rows(r.value.samples[|m.samples|..], Columns(0, 1 + |fields|))
               == Some(SamplesFrom(kind, native, bits / 8, fields, domain, messages, i, count))
    decreases count - i
  {
    hide ExecAll, IsBody, Layout, SampleOf, Row;
    if i == count {
      LayoutCounts(payload, bits / 8, count, domain, messages);
      assert m.samples[|m.samples|..] == [];
    } else {
      var entered := Enter(Some("i"), i, m);
      RoomForEach(fields, messages, count, i);
      BodyTurn(body, kind, bits, fields, native, payload, count, domain, messages, i, entered);
      var next := ExecAll(body, payload, entered).value;
      IterateTurn(Some("i"), i, count, body, payload, m);
      CanLoop(body, kind, bits, fields, native, payload, count, domain, messages, i + 1, next);
      var r := Iterate(Some("i"), i, 1, Some(count), body, payload, m).value;
      assert r.samples[|m.samples|] == r.samples[..|next.samples|][|m.samples|] == next.samples[|m.samples|];
      assert r.samples[..|m.samples|] == r.samples[..|next.samples|][..|m.samples|];
      RowsStep(m.samples, r.samples, Columns(0, 1 + |fields|));
    }
  }

  lemma LayoutCounts(payload: seq<Byte>, width: nat, count: nat, domain: seq<Byte>, messages: seq<Byte>)
    requires Layout(payload, width, count, domain, messages)
    ensures |domain| == count * width
  {
  }

  lemma IterateFails(counter: Option<string>, i: int, end: int, body: seq<Stmt>, payload: seq<Byte>, m: Machine)
    requires i < end && ExecAll(body, payload, Enter(counter, i, m)) == None
    ensures Iterate(counter, i, 1, Some(end), body, payload, m) == None
  {
  }

  /** Where the fields of the last message run past the end, the loop cannot be finished. */
  lemma {:induction false} CanLoopFails(body: seq<Stmt>, kind: Kind, bits: nat, fields: seq<DataDescriptor>,
                                        native: Endian, payload: seq<Byte>, count: nat, domain: seq<Byte>,
                                        messages: seq<Byte>, i: nat, m: Machine)
    requires GoodFields(fields) && bits in {8, 16, 32, 64}
    requires IsBody(body, kind, bits, fields, native)
    requires Layout(payload, bits / 8, count, domain, messages) && i <= count && !Room(fields, messages, count)
    requires Room(fields, messages, i)
    requires m.pos == 4 + (bits / 8) * i && "n" in m.vars && m.vars["n"] == IntValue(count)
    ensures Iterate(Some("i"), i, 1, Some(count), body, payload, m) == None
    decreases count - i
  {
    var entered := Enter(Some("i"), i, m);
    if i * MESSAGE + TotalWidth(fields) > |messages| {
      BodyFails(body, kind, bits, fields, native, payload, count, domain, messages, i, entered);
      IterateFails(Some("i"), i, count, body, payload, m);
    } else {
      BodyTurn(body, kind, bits, fields, native, payload, count, domain, messages, i, entered);
      IterateTurn(Some("i"), i, count, body, payload, m);
      CanLoopFails(body, kind, bits, fields, native, payload, count, domain, messages, i + 1,
                   ExecAll(body, payload, entered).value);
    }
  }

  /** Reading the count and entering the loop. */
  lemma CountTurn(program: seq<Stmt>, kind: Kind, bits: nat, fields: seq<DataDescriptor>, native: Endian,
                  count: nat, payload: seq<Byte>) returns (m: Machine)
    requires GoodFields(fields) && IsProgram(program, kind, bits, fields, native)
    requires |payload| >= 4 && Decode(native, payload[0..4]) == count
    ensures RunDecoder(program, payload) == Iterate(Some("i"), 0, 1, Some(count), program[1].body, payload, m)
    ensures m.pos == 4 && m.samples == [] && "n" in m.vars && m.vars["n"] == IntValue(count)
  {
    assert program[0..] == program && program[2..] == [];
    m := Machine(4, map["n" := IntValue(count)], [], []);
    assert Exec(program[0], payload, START) == Some(m);
    ExecAllAt(program, 0, payload, START);
    ExecAllAt(program, 1, payload, m);
    assert Eval(Var("n"), m.vars) == Some(count);
  }

  /** A payload laid out as a count, count domain values and at least 69 bytes for each message decodes to
      count samples, pairing domain value i with the fields at message i, if and only if the fields of the
      last message end inside it. */
  lemma {:induction false} DecoderIsCorrect(program: seq<Stmt>, kind: Kind, bits: nat, fields: seq<DataDescriptor>,
                                            native: Endian, count: nat, domain: seq<Byte>, messages: seq<Byte>,
                                            payload: seq<Byte>)
    requires GoodFields(fields) && bits in {8, 16, 32, 64}
    requires IsProgram(program, kind, bits, fields, native)
    requires Layout(payload, bits / 8, count, domain, messages) && Decode(native, payload[0..4]) == count
    ensures var r := RunDecoder(program, payload);
            && count * (bits / 8) <= |domain|
            && (r.Some? <==> Room(fields, messages, count))
            && (r.Some? ==> Rows(r.value.samples, Columns(0, 1 + |fields|))
                            == Some(SamplesFrom(kind, native, bits / 8, fields, domain, messages, 0, count)))
  {
    var m := CountTurn(program, kind, bits, fields, native, count, payload);
    if Room(fields, messages, count) {
      CanLoop(program[1].body, kind, bits, fields, native, payload, count, domain, messages, 0, m);
      var r := Iterate(Some("i"), 0, 1, Some(count), program[1].body, payload, m).value;
      assert r.samples[0..] == r.samples;
    } else {
      CanLoopFails(program[1].body, kind, bits, fields, native, payload, count, domain, messages, 0, m);
    }
  }

  // ----- The packets the handler accepts -----

  /** onDataPacketReceived: the block written for a packet, if any. The sample count is narrowed to
      32 bits; the raw sizes are only bounded from below. */
  function DataPayload(native: Endian, packet: Packet): Option<seq<Byte>> {
    if packet.domain.None? then None
    else
      var n := packet.sampleCount % 0x1_0000_0000;
      if |packet.raw| < n * MESSAGE || |packet.domain.value.raw| < n * 8 then None
      else Some(Payload(native, n, packet.domain.value.raw, packet.raw))
  }

  lemma ThreeParts(head: seq<Byte>, domain: seq<Byte>, messages: seq<Byte>, cut: nat)
    requires |head| == 4 && cut <= |domain|
    ensures var p := head + domain + messages;
            p[0..4] == head && p[4..4 + cut] == domain[..cut] && p[4 + cut..] == domain[cut..] + messages
  {
  }

  lemma CountRoundTrip(native: Endian, count: nat)
    requires count < 0x1_0000_0000
    ensures Decode(native, Encode(native, count % 0x1_0000_0000, 4)) == count
  {
    hide Encode, Decode;
    Powers();
    assert count % 0x1_0000_0000 == count;
    RoundTrip(native, count, 4);
  }

  lemma PayloadLayout(native: Endian, width: nat, count: nat, domain: seq<Byte>, messages: seq<Byte>)
    requires count < 0x1_0000_0000 && count * width <= |domain| && count * MESSAGE <= |messages|
    ensures var payload := Payload(native, count, domain, messages);
            && Layout(payload, width, count, domain[..count * width], domain[count * width..] + messages)
            && Decode(native, payload[0..4]) == count
  {
    hide Encode, Decode;
    CountRoundTrip(native, count);
    var cut := count * width;
    assert count % 0x1_0000_0000 == count;
    ThreeParts(Encode(native, count, 4), domain, messages, cut);
    assert |domain[..cut]| == cut && |domain[cut..] + messages| == |domain| - cut + |messages|;
  }

  /** What the reader gets for every packet the handler accepts. The decoder takes the messages to start
      right after the domain values, wherever the raw domain data really ends, and 69 bytes apart, however
      wide the fields are; it fails if and only if the fields of the last message run past the end. */
  lemma {:induction false} AcceptedPacket(program: seq<Stmt>, kind: Kind, bits: nat, fields: seq<DataDescriptor>,
                                          native: Endian, packet: Packet)
    requires GoodFields(fields) && bits in {8, 16, 32, 64}
    requires IsProgram(program, kind, bits, fields, native)
    requires DataPayload(native, packet).Some?
    ensures var n := packet.sampleCount % 0x1_0000_0000;
            var domain, r := packet.domain.value.raw, RunDecoder(program, DataPayload(native, packet).value);
            && n * (bits / 8) <= |domain| && n * MESSAGE <= |packet.raw|
            && var messages := domain[n * (bits / 8)..] + packet.raw;
               && (r.Some? <==> Room(fields, messages, n))
               && (r.Some? ==> Rows(r.value.samples, Columns(0, 1 + |fields|))
                               == Some(SamplesFrom(kind, native, bits / 8, fields, domain[..n * (bits / 8)], messages,
                                                   0, n)))
  {
    var n := packet.sampleCount % 0x1_0000_0000;
    var domain := packet.domain.value.raw;
    WidthBound(n, bits);
    PayloadLayout(native, bits / 8, n, domain, packet.raw);
    DecoderIsCorrect(program, kind, bits, fields, native, n, domain[..n * (bits / 8)],
                     domain[n * (bits / 8)..] + packet.raw, DataPayload(native, packet).value);
  }

  lemma WidthBound(n: nat, bits: nat)
    requires bits in {8, 16, 32, 64}
    ensures n * (bits / 8) <= n * 8
  {
  }
}
