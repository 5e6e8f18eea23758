/** LogPayload: a byte string with 256 bytes of inline storage, doubling growth and a stealing move. */
module Payload {
  import opened Options
  import opened Formatting

  const INLINE_CAPACITY := 256

  function Max(a: nat, b: nat): nat { if a < b then b else a }

  // ----- what a run of calls makes of a string -----

  datatype Op = AssignOp(value: string) | AppendOp(value: string) | PushBackOp(c: char) | ClearOp

  function After(content: string, op: Op): string {
    match op
    case AssignOp(value) => value
    case AppendOp(value) => content + value
    case PushBackOp(c) => content + [c]
    case ClearOp => ""
  }

  function AfterAll(content: string, ops: seq<Op>): string {
    if ops == [] then content else After(AfterAll(content, ops[..|ops| - 1]), ops[|ops| - 1])
  }

  /** The greatest length the string has after any of the calls. */
  function Peak(content: string, ops: seq<Op>): nat {
    if ops == [] then 0 else Max(Peak(content, ops[..|ops| - 1]), |AfterAll(content, ops)|)
  }

  class LogPayload {
    const inlineStorage: array<char>
    var heapStorage: array?<char>
    var data: array<char>
    var size: nat
    var capacity: nat

    // since the last reset or move: bytes copied because of growth, and the largest size asked for
    ghost var copied: nat
    ghost var required: nat

    ghost predicate Valid()
      reads this, data
    {
      && inlineStorage.Length == INLINE_CAPACITY + 1
      && (heapStorage == null ==> data == inlineStorage && capacity == INLINE_CAPACITY)
      && (heapStorage != null ==> data == heapStorage && heapStorage != inlineStorage)
      && data.Length == capacity + 1
      && size <= capacity && data[size] == '\0'
      && (heapStorage == null <==> required <= INLINE_CAPACITY)
      && size <= required
      // the price of growth
      && copied + INLINE_CAPACITY <= capacity
      && (capacity == INLINE_CAPACITY || capacity < 2 * required)
    }

    ghost function Repr(): set<object>
      reads this
    {
      {this, inlineStorage, data}
    }

    ghost function View(): string
      requires size <= data.Length
      reads this, data
    {
      data[..size]
    }

    predicate IsInline()
      reads this
    {
      data == inlineStorage
    }

    constructor ()
      ensures Valid() && View() == "" && IsInline() && fresh(Repr()) && required == copied == 0
    {
      var storage := new char[INLINE_CAPACITY + 1];
      inlineStorage := storage;
      data := storage;
      heapStorage := null;
      size := 0;
      capacity := INLINE_CAPACITY;
      copied, required := 0, 0;
      new;
      ResetInline();
    }

    method ResetInline()
      requires inlineStorage.Length == INLINE_CAPACITY + 1
      modifies this, inlineStorage
      ensures Valid() && View() == "" && IsInline() && required == copied == 0
    {
      heapStorage := null;
      data := inlineStorage;
      capacity := INLINE_CAPACITY;
      size := 0;
      inlineStorage[0] := '\0';
      copied, required := 0, 0;
    }

    method Clear()
      requires Valid()
      modifies this, data
      ensures Valid() && View() == "" && data == old(data) && required == old(required)
    {
      size := 0;
      data[0] := '\0';
    }

    /** Room for requiredSize bytes and the terminator; the bytes stay. */
    method EnsureCapacity(requiredSize: nat)
      requires Valid()
      modifies this
      ensures Valid() && View() == old(View()) && requiredSize <= capacity
      ensures required == Max(old(required), requiredSize)
      ensures data == old(data) || fresh(data)
      ensures requiredSize <= old(capacity) ==> data == old(data)
    {
      required := Max(required, requiredSize);
      if requiredSize <= capacity {
        return;
      }
      var newCapacity := Max(capacity * 2, requiredSize);
      var storage := new char[newCapacity + 1];
      forall i | 0 <= i < size {
        storage[i] := data[i];
      }
      copied := copied + size;
      storage[size] := '\0';

      heapStorage := storage;
      data := storage;
      capacity := newCapacity;
    }

    method Assign(value: string)
      requires Valid()
      modifies this, data
      ensures Valid() && View() == value
      ensures required == Max(old(required), |value|)
      ensures data == old(data) || fresh(data)
      ensures |value| <= old(capacity) ==> data == old(data)
    {
      EnsureCapacity(|value|);
      forall i | 0 <= i < |value| {
        data[i] := value[i];
      }
      size := |value|;
      data[size] := '\0';
    }

    method Append(value: string)
      requires Valid()
      modifies this, data
      ensures Valid() && View() == old(View()) + value
      ensures required == Max(old(required), size)
      ensures data == old(data) || fresh(data)
    {
      if value == "" {
        return;
      }
      EnsureCapacity(size + |value|);
      forall i | 0 <= i < |value| {
        data[size + i] := value[i];
      }
      size := size + |value|;
      data[size] := '\0';
    }

    method PushBack(value: char)
      requires Valid()
      modifies this, data
      ensures Valid() && View() == old(View()) + [value]
      ensures required == Max(old(required), size)
      ensures data == old(data) || fresh(data)
    {
      EnsureCapacity(size + 1);
      data[size] := value;
      size := size + 1;
      data[size] := '\0';
    }

    /** One call makes of the payload what it makes of a string. */
    method Step(op: Op)
      requires Valid()
      modifies this, data
      ensures Valid() && View() == After(old(View()), op)
      ensures required == Max(old(required), |View()|)
      ensures data == old(data) || fresh(data)
    {
      match op {
        case AssignOp(value) => Assign(value);
        case AppendOp(value) => Append(value);
        case PushBackOp(c) => PushBack(c);
        case ClearOp => Clear();
      }
    }

    /** Any run of calls makes of the payload what it makes of a string.  The payload leaves the inline
        storage exactly when the string once was longer than it, and the bytes copied by growing since
        the last reset are fewer than twice the greatest length, less the inline storage. */
    method Perform(ops: seq<Op>)
      requires Valid()
      modifies this, data
      ensures Valid() && View() == AfterAll(old(View()), ops)
      ensures required == Max(old(required), Peak(old(View()), ops))
      ensures IsInline() <==> required <= INLINE_CAPACITY
      ensures copied == 0 || copied + INLINE_CAPACITY < 2 * required
    {
      for i := 0 to |ops|
        invariant Valid() && (data == old(data) || fresh(data))
        invariant View() == AfterAll(old(View()), ops[..i])
        invariant required == Max(old(required), Peak(old(View()), ops[..i]))
      {
        assert ops[..i + 1][..i] == ops[..i];
        Step(ops[i]);
        assert View() == AfterAll(old(View()), ops[..i + 1]);
      }
      assert ops[..|ops|] == ops;
    }

    /** An inline payload is copied into the inline storage, without allocating; a heap payload gives
        its storage away and is empty and inline afterwards. */
    method MoveFrom(other: LogPayload)
      requires Valid() && other.Valid() && Repr() !! other.Repr()
      modifies Repr(), other.Repr()
      ensures Valid() && other.Valid() && Repr() !! other.Repr()
      ensures View() == old(other.View()) && IsInline() == old(other.IsInline())
      ensures data == if old(other.IsInline()) then inlineStorage else old(other.data)
      ensures other.IsInline()
      ensures other.View() == if old(other.IsInline()) then old(other.View()) else ""
      ensures required == if old(other.IsInline()) then old(|other.View()|) else old(other.required)
      ensures other.required == if old(other.IsInline()) then old(other.required) else 0
    {
      if other.IsInline() {
        ResetInline();
        Assign(other.data[..other.size]);
      } else {
        heapStorage := other.heapStorage;
        data := other.data;
        capacity := other.capacity;
        size := other.size;
        copied, required := other.copied, other.required;
        other.ResetInline();
      }
    }
  }

  // ----- several payloads, with moves between them -----

  /** A payload as its user sees it: its bytes, and the greatest length since the last reset or move,
      which decides whether it is inline. */
  datatype Held = Held(content: string, peak: nat)

  datatype Action = On(i: nat, op: Op) | Move(target: nat, source: nat)

  /** What an action makes of all of them; an assignment to itself does nothing. */
  function Acted(helds: seq<Held>, action: Action): (after: seq<Held>)
    ensures |after| == |helds|
  {
    match action
    case On(i, op) =>
      if i >= |helds| then helds
      else
        var content := After(helds[i].content, op);
        helds[i := Held(content, Max(helds[i].peak, |content|))]
    case Move(target, source) =>
      if target >= |helds| || source >= |helds| || target == source then helds
      else if helds[source].peak <= INLINE_CAPACITY then
        helds[target := Held(helds[source].content, |helds[source].content|)]
      else helds[target := helds[source]][source := Held("", 0)]
  }

  function ActedAll(helds: seq<Held>, actions: seq<Action>): (after: seq<Held>)
    ensures |after| == |helds|
  {
    if actions == [] then helds else Acted(ActedAll(helds, actions[..|actions| - 1]), actions[|actions| - 1])
  }

  /** Payload p holds these bytes, and is inline if and only if they never were too long. */
  ghost predicate Holding(p: LogPayload, held: Held)
    reads p, p.data
  {
    && p.Valid() && p.View() == held.content && p.required == held.peak
    && (p.IsInline() <==> held.peak <= INLINE_CAPACITY)
  }

  /** No two payloads share storage. */
  ghost predicate Apart(ps: seq<LogPayload>)
    reads ps
  {
    forall i, j :: ApartAt(ps, i, j)
  }

  ghost predicate ApartAt(ps: seq<LogPayload>, i: int, j: int)
    reads ps
  {
    0 <= i < |ps| && 0 <= j < |ps| && i != j ==> ps[i].Repr() !! ps[j].Repr()
  }

  ghost predicate HoldingAll(ps: seq<LogPayload>, helds: seq<Held>)
    reads ps, set p | p in ps :: p.data
  {
    |ps| == |helds| && forall i | 0 <= i < |ps| :: Holding(ps[i], helds[i])
  }

  ghost function Footprint(ps: seq<LogPayload>): set<object>
    reads ps
  {
    set p, o | p in ps && o in p.Repr() :: o
  }

  lemma InFootprint(ps: seq<LogPayload>, i: nat)
    requires i < |ps|
    ensures ps[i].Repr() <= Footprint(ps)
  {
    assert ps[i] in ps;
  }

  method ActOn(ps: seq<LogPayload>, i: nat, op: Op, ghost helds: seq<Held>)
    requires Apart(ps) && HoldingAll(ps, helds) && i < |ps|
    modifies ps[i], ps[i].data
    ensures Apart(ps) && HoldingAll(ps, Acted(helds, On(i, op)))
    ensures Footprint(ps) <= old(Footprint(ps)) + {ps[i].data} && (ps[i].data == old(ps[i].data) || fresh(ps[i].data))
  {
    ps[i].Step(op);
    forall j | 0 <= j < |ps| && j != i
      ensures ps[j].Repr() == old(ps[j].Repr()) && ps[j].Repr() !! ps[i].Repr() && Holding(ps[j], helds[j])
    {
      assert old(ApartAt(ps, i, j)) && old(Holding(ps[j], helds[j]));
    }
    forall j, k ensures ApartAt(ps, j, k) {
      assert old(ApartAt(ps, j, k));
    }
    forall o | o in Footprint(ps) ensures o in old(Footprint(ps)) + {ps[i].data} {
      var j :| 0 <= j < |ps| && o in ps[j].Repr();
      assert ps[j] in ps && (o == ps[i].data || o in old(ps[j].Repr()));
    }
  }

  method MovePair(target: LogPayload, source: LogPayload, ghost t: Held, ghost s: Held)
    requires Holding(target, t) && Holding(source, s) && target.Repr() !! source.Repr()
    modifies target.Repr(), source.Repr()
    ensures Holding(target, if s.peak <= INLINE_CAPACITY then Held(s.content, |s.content|) else s)
    ensures Holding(source, if s.peak <= INLINE_CAPACITY then s else Held("", 0))
    ensures target.Repr() !! source.Repr()
    ensures target.Repr() + source.Repr() <= old(target.Repr() + source.Repr())
  {
    target.MoveFrom(source);
  }

  ghost function Reprs(ps: seq<LogPayload>): (reprs: seq<set<object>>)
    reads ps
    ensures |reprs| == |ps| && forall i | 0 <= i < |ps| :: reprs[i] == ps[i].Repr()
  {
    seq(|ps|, i requires 0 <= i < |ps| reads ps => ps[i].Repr())
  }

  /** Two footprints that share out what they had stay apart from all others. */
  lemma ApartStays(before: seq<set<object>>, after: seq<set<object>>, target: nat, source: nat, j: nat, k: nat)
    requires |before| == |after| && target < |after| && source < |after| && target != source
    requires j < |after| && k < |after| && j != k
    requires after[target] !! after[source] && after[target] + after[source] <= before[target] + before[source]
    requires before[j] !! before[k]
    requires forall i | i == j || i == k :: i != target && i != source ==> after[i] == before[i]
    requires forall i | (i == j || i == k) && i != target && i != source :: before[i] !! before[target] + before[source]
    ensures after[j] !! after[k]
  {
  }

  method ActMove(ps: seq<LogPayload>, target: nat, source: nat, ghost helds: seq<Held>)
    requires Apart(ps) && HoldingAll(ps, helds) && target < |ps| && source < |ps| && target != source
    modifies ps[target].Repr(), ps[source].Repr()
    ensures Apart(ps) && HoldingAll(ps, Acted(helds, Move(target, source)))
    ensures ps[target].Repr() + ps[source].Repr() <= old(ps[target].Repr() + ps[source].Repr())
    ensures forall j | 0 <= j < |ps| && j != target && j != source :: ps[j].Repr() == old(ps[j].Repr())
  {
    assert Holding(ps[source], helds[source]) && Holding(ps[target], helds[target]);
    assert ApartAt(ps, target, source);
    ghost var before := Reprs(ps);
    MovePair(ps[target], ps[source], helds[target], helds[source]);
    forall j | 0 <= j < |ps| && j != target && j != source
      ensures ps[j].Repr() == old(ps[j].Repr()) && Holding(ps[j], helds[j])
    {
      assert old(ApartAt(ps, target, j)) && old(ApartAt(ps, source, j)) && old(Holding(ps[j], helds[j]));
    }
    forall j, k ensures ApartAt(ps, j, k) {
      if 0 <= j < |ps| && 0 <= k < |ps| && j != k {
        assert old(ApartAt(ps, j, k)) && old(ApartAt(ps, j, target)) && old(ApartAt(ps, j, source));
        assert old(ApartAt(ps, k, target)) && old(ApartAt(ps, k, source));
        ApartStays(before, Reprs(ps), target, source, j, k);
      }
    }
  }

  method Act(ps: seq<LogPayload>, action: Action, ghost helds: seq<Held>)
    requires Apart(ps) && HoldingAll(ps, helds)
    modifies Footprint(ps)
    ensures Apart(ps) && HoldingAll(ps, Acted(helds, action))
    ensures forall o | o in Footprint(ps) :: o in old(Footprint(ps)) || fresh(o)
  {
    match action {
      case On(i, op) =>
        if i < |ps| {
          InFootprint(ps, i);
          ActOn(ps, i, op, helds);
        }
      case Move(target, source) =>
        if target < |ps| && source < |ps| && target != source {
          InFootprint(ps, target);
          InFootprint(ps, source);
          ActMove(ps, target, source, helds);
          forall o | o in Footprint(ps) ensures o in old(Footprint(ps)) {
            var j :| 0 <= j < |ps| && o in ps[j].Repr();
            assert ps[j] in ps && (j == target || j == source || o in old(ps[j].Repr()));
          }
        }
    }
  }

  /** Any run of calls and moves on any number of payloads makes of them what it makes of as many
      strings, and keeps them inline exactly as long as those never were too long. */
  method ActAll(ps: seq<LogPayload>, actions: seq<Action>, ghost helds: seq<Held>)
    requires Apart(ps) && HoldingAll(ps, helds)
    modifies Footprint(ps)
    ensures Apart(ps) && HoldingAll(ps, ActedAll(helds, actions))
  {
    for n := 0 to |actions|
      invariant Apart(ps) && HoldingAll(ps, ActedAll(helds, actions[..n]))
      invariant forall o | o in Footprint(ps) :: o in old(Footprint(ps)) || fresh(o)
    {
      assert actions[..n + 1][..n] == actions[..n];
      Act(ps, actions[n], ActedAll(helds, actions[..n]));
    }
    assert actions[..|actions|] == actions;
  }

  // ----- building a payload from the arguments of a log call -----

  /** The kinds of argument a log call takes; a streamed value brings its text along. */
  datatype Argument =
    | Text(text: string)
    | CString(pointer: Option<string>)
    | Character(c: char)
    | Boolean(b: bool)
    | Integer(i: int)
    | Streamed(text: string)

  /** What an argument contributes: its text, with (null) for a null pointer and 1 or 0 for a truth
      value. */
  function TextOf(argument: Argument): string {
    match argument
    case Text(text) => text
    case CString(pointer) => pointer.GetOr("(null)")
    case Character(c) => [c]
    case Boolean(b) => if b then "1" else "0"
    case Integer(i) => Decimal(i)
    case Streamed(text) => text
  }

  function TextsOf(arguments: seq<Argument>): string {
    if arguments == [] then "" else TextsOf(arguments[..|arguments| - 1]) + TextOf(arguments[|arguments| - 1])
  }

  method AppendPayloadPart(payload: LogPayload, argument: Argument)
    requires payload.Valid()
    modifies payload, payload.data
    ensures payload.Valid() && payload.View() == old(payload.View()) + TextOf(argument)
    ensures argument == CString(None) ==> payload.View() == old(payload.View()) + "(null)"
    ensures argument == Boolean(true) ==> payload.View() == old(payload.View()) + "1"
    ensures argument == Boolean(false) ==> payload.View() == old(payload.View()) + "0"
    ensures argument.Text? || argument.Streamed? ==> payload.View() == old(payload.View()) + argument.text
    ensures argument.Character? ==> payload.View() == old(payload.View()) + [argument.c]
    ensures argument.CString? && argument.pointer.Some? ==> payload.View() == old(payload.View()) + argument.pointer.value
    ensures payload.required == Max(old(payload.required), payload.size)
    ensures payload.data == old(payload.data) || fresh(payload.data)
  {
    match argument {
      case Text(text) => payload.Append(text);
      case CString(pointer) => payload.Append(if pointer.Some? then pointer.value else "(null)");
      case Character(c) => payload.PushBack(c);
      case Boolean(b) => payload.PushBack(if b then '1' else '0');
      case Integer(i) => payload.Append(Decimal(i));
      case Streamed(text) => payload.Append(text);
    }
  }

  /** A payload built from any arguments holds exactly their texts, is inline if and only if they fit,
      and growing copied fewer than twice as many bytes as it holds, less the inline storage. */
  method BuildPayload(arguments: seq<Argument>) returns (payload: LogPayload)
    ensures fresh(payload) && payload.Valid() && payload.View() == TextsOf(arguments)
    ensures payload.IsInline() <==> |TextsOf(arguments)| <= INLINE_CAPACITY
    ensures payload.copied == 0 || payload.copied + INLINE_CAPACITY < 2 * |TextsOf(arguments)|
  {
    payload := new LogPayload();
    for i := 0 to |arguments|
      invariant fresh(payload.Repr()) && payload.Valid()
      invariant payload.View() == TextsOf(arguments[..i]) && payload.required == payload.size
    {
      assert arguments[..i + 1][..i] == arguments[..i];
      AppendPayloadPart(payload, arguments[i]);
    }
    assert arguments[..|arguments|] == arguments;
  }
}
