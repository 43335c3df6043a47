/**
 * The TLV container walkers (bridge/fields_reader.go,
 * bridge/fields_reader_scenes.go, bridge/fields_reader_groupcast.go,
 * bridge/fields_reader_groupkeys.go) over a stream of decoded elements. The
 * end of the stream stands for any error of the decoder.
 */
module TlvWalkers {
  import opened Bytes

  datatype Tag = Tag(context: bool, number: nat)

  datatype Box = Structure | Array | List

  datatype Value = Unsigned(n: u64) | Bool(b: bool) | Octets(o: seq<byte>) | Null | Other

  /** One element as the decoder returns it. */
  datatype Token = Open(tag: Tag, box: Box) | Leaf(tag: Tag, value: Value) | End

  /** What a stream spells. */
  datatype Node = Plain(tag: Tag, value: Value) | Container(tag: Tag, box: Box, children: seq<Node>)

  /** The elements of `ns` followed by `rest`. */
  function Spell(ns: seq<Node>, rest: seq<Token>): seq<Token>
    decreases ns
  {
    if ns == [] then rest else SpellNode(ns[0], Spell(ns[1..], rest))
  }

  function SpellNode(n: Node, rest: seq<Token>): seq<Token>
    decreases n
  {
    match n
    case Plain(tag, value) => [Leaf(tag, value)] + rest
    case Container(tag, box, children) => [Open(tag, box)] + Spell(children, [End] + rest)
  }

  // ---- draining and reading a container

  function Drain(ts: seq<Token>, depth: nat): (r: Option<seq<Token>>)
    ensures r.Some? ==> |r.value| <= |ts|
    decreases |ts|
  {
    if depth == 0 then Some(ts)
    else if ts == [] then None
    else match ts[0]
      case Open(_, _) => Drain(ts[1..], depth + 1)
      case Leaf(_, _) => Drain(ts[1..], depth)
      case End => Drain(ts[1..], depth - 1)
  }

  /** What a walker that reads every member returns, and where it stops. */
  function ReadTree(ts: seq<Token>): (r: Option<(seq<Node>, seq<Token>)>)
    ensures r.Some? ==> |r.value.1| < |ts|
    decreases |ts|
  {
    if ts == [] then None
    else match ts[0]
      case End => Some(([], ts[1..]))
      case Leaf(tag, value) =>
        var more := ReadTree(ts[1..]);
        if more.None? then None else Some(([Plain(tag, value)] + more.value.0, more.value.1))
      case Open(tag, box) =>
        var kids := ReadTree(ts[1..]);
        if kids.None? then None else
          var more := ReadTree(kids.value.1);
          if more.None? then None else Some(([Container(tag, box, kids.value.0)] + more.value.0, more.value.1))
  }

  /** On every stream the two stop at the same place, or both fail. */
  lemma {:induction false} ReadStopsWhereDrainStops(ts: seq<Token>, outer: nat)
    ensures Drain(ts, outer + 1) == if ReadTree(ts).None? then None else Drain(ReadTree(ts).value.1, outer)
    decreases |ts|
  {
    if ts != [] {
      match ts[0]
      case End =>
      case Leaf(_, _) => ReadStopsWhereDrainStops(ts[1..], outer);
      case Open(_, _) =>
        ReadStopsWhereDrainStops(ts[1..], outer + 1);
        if ReadTree(ts[1..]).Some? {
          ReadStopsWhereDrainStops(ReadTree(ts[1..]).value.1, outer);
        }
    }
  }

  lemma Peel(t: Token, rest: seq<Token>)
    ensures [t] + rest != [] && ([t] + rest)[0] == t && ([t] + rest)[1..] == rest
  {}

  /** A spelled tree is read back, with the stream left at what followed it. */
  lemma {:induction false} ReadSpelled(ns: seq<Node>, rest: seq<Token>)
    ensures ReadTree(Spell(ns, [End] + rest)) == Some((ns, rest))
    decreases ns
  {
    if ns == [] {
      Peel(End, rest);
    } else {
      var more := Spell(ns[1..], [End] + rest);
      ReadSpelled(ns[1..], rest);
      assert ns == [ns[0]] + ns[1..];
      match ns[0]
      case Plain(tag, value) => Peel(Leaf(tag, value), more);
      case Container(tag, box, children) =>
        Peel(Open(tag, box), Spell(children, [End] + more));
        ReadSpelled(children, more);
    }
  }

  /** Conversely, what is read is what the stream spells. */
  lemma {:induction false} ReadSpells(ts: seq<Token>)
    requires ReadTree(ts).Some?
    ensures ts == Spell(ReadTree(ts).value.0, [End] + ReadTree(ts).value.1)
    decreases |ts|
  {
    assert ts == [ts[0]] + ts[1..];
    match ts[0]
    case End =>
    case Leaf(_, _) => ReadSpells(ts[1..]);
      assert ReadTree(ts).value.0[1..] == ReadTree(ts[1..]).value.0;
    case Open(_, _) =>
      ReadSpells(ts[1..]);
      ReadSpells(ReadTree(ts[1..]).value.1);
      assert ReadTree(ts).value.0[1..] == ReadTree(ReadTree(ts[1..]).value.1).value.0;
  }

  /** So one drain after any members reaches what follows their container. */
  lemma DrainSpelled(ns: seq<Node>, rest: seq<Token>)
    ensures Drain(Spell(ns, [End] + rest), 1) == Some(rest)
  {
    ReadSpelled(ns, rest);
    ReadStopsWhereDrainStops(Spell(ns, [End] + rest), 0);
  }

  // ---- fields

  datatype Code = InvalidCommand | ConstraintError

  /** A decoder's end: a value, a typed reject, or an error of the stream. */
  datatype Out<T> = Done(value: T, rest: seq<Token>) | Reject(code: Code, consumed: bool, rest: seq<Token>) | Broken

  datatype Kind = Uint16 | Enum8 | Boolean | OctetString | EndpointList | KeySet

  datatype GroupKeySet = GroupKeySet(id: nat, policy: nat, key0: seq<byte>, start0: u64, key1: seq<byte>, start1: u64,
                                     key2: seq<byte>, start2: u64, multicast: nat)

  datatype Field =
    | Number(n: nat) | Flag(b: bool) | Text(o: seq<byte>) | Endpoints(es: seq<nat>) | Keys(gks: GroupKeySet)

  function Limit(k: Kind): nat {
    if k.Enum8? then 0x100 else 0x1_0000
  }

  /** An unsigned integer below `limit`. */
  function NumberIn(v: Option<Value>, limit: nat): Result<nat, Code> {
    if v.Some? && v.value.Unsigned? then
      if v.value.n as nat < limit then Ok(v.value.n as nat) else Err(ConstraintError)
    else Err(InvalidCommand)
  }

  function ValueOf(t: Token): Option<Value> {
    if t.Leaf? then Some(t.value) else None
  }

  function Skip(t: Token, ts: seq<Token>): (r: Option<seq<Token>>)
    ensures r.Some? ==> |r.value| <= |ts|
  {
    if t.Open? then Drain(ts, 1) else Some(ts)
  }

  /** A skip whose failure is ignored: the stream is at its end then. */
  function SkipAnyway(t: Token, ts: seq<Token>): (r: seq<Token>)
    ensures |r| <= |ts|
  {
    if Skip(t, ts).Some? then Skip(t, ts).value else []
  }

  function EndpointsFrom(ts: seq<Token>, out: seq<nat>): (r: Out<Field>)
    ensures !r.Broken? ==> |r.rest| <= |ts|
    decreases |ts|
  {
    if ts == [] then Broken
    else if ts[0].End? then Done(Endpoints(out), ts[1..])
    else match NumberIn(ValueOf(ts[0]), 0x1_0000)
      case Ok(n) => EndpointsFrom(ts[1..], out + [n])
      case Err(code) =>
        var r := Drain(SkipAnyway(ts[0], ts[1..]), 1);
        if r.None? then Broken else Reject(code, false, r.value)
  }

  /** The state of the group key set decoder: the fields, which were seen, and the first error. */
  datatype KeySetAcc = KeySetAcc(gks: GroupKeySet, seen: set<nat>, err: Option<Code>)

  const NO_KEYS := KeySetAcc(GroupKeySet(0, 0, [], 0, [], 0, [], 0, 0), {}, None)

  function First(err: Option<Code>, code: Code): Option<Code> {
    if err.Some? then err else Some(code)
  }

  function OctetsIn(v: Value): Option<seq<byte>> {
    match v
    case Null => Some([])
    case Octets(o) => Some(o)
    case _ => None
  }

  function EpochIn(v: Value): Option<u64> {
    match v
    case Null => Some(0)
    case Unsigned(n) => Some(n)
    case _ => None
  }

  function NumberTo(acc: KeySetAcc, v: Value, limit: nat, store: (GroupKeySet, nat) -> GroupKeySet): KeySetAcc {
    match NumberIn(Some(v), limit)
    case Ok(n) => acc.(gks := store(acc.gks, n))
    case Err(code) => acc.(err := First(acc.err, code))
  }

  function OctetsTo(acc: KeySetAcc, v: Value, store: (GroupKeySet, seq<byte>) -> GroupKeySet): KeySetAcc {
    match OctetsIn(v)
    case Some(o) => acc.(gks := store(acc.gks, o))
    case None => acc.(err := First(acc.err, InvalidCommand))
  }

  function EpochTo(acc: KeySetAcc, v: Value, store: (GroupKeySet, u64) -> GroupKeySet): KeySetAcc {
    match EpochIn(v)
    case Some(n) => acc.(gks := store(acc.gks, n))
    case None => acc.(err := First(acc.err, InvalidCommand))
  }

  function KeySetValue(acc: KeySetAcc, number: nat, v: Value): KeySetAcc {
    match number
    case 0 => NumberTo(acc, v, 0x1_0000, (g: GroupKeySet, n: nat) => g.(id := n))
    case 1 => NumberTo(acc, v, 0x100, (g: GroupKeySet, n: nat) => g.(policy := n))
    case 2 => OctetsTo(acc, v, (g: GroupKeySet, o) => g.(key0 := o))
    case 3 => EpochTo(acc, v, (g: GroupKeySet, n: u64) => g.(start0 := n))
    case 4 => OctetsTo(acc, v, (g: GroupKeySet, o) => g.(key1 := o))
    case 5 => EpochTo(acc, v, (g: GroupKeySet, n: u64) => g.(start1 := n))
    case 6 => OctetsTo(acc, v, (g: GroupKeySet, o) => g.(key2 := o))
    case 7 => EpochTo(acc, v, (g: GroupKeySet, n: u64) => g.(start2 := n))
    case _ => if v.Unsigned? then acc.(gks := acc.gks.(multicast := v.n as nat % 0x100))
              else acc.(err := First(acc.err, InvalidCommand))
  }

  function KeySetLeaf(acc: KeySetAcc, tag: Tag, v: Value): KeySetAcc {
    if !tag.context || tag.number > 8 then acc else KeySetValue(acc.(seen := acc.seen + {tag.number}), tag.number, v)
  }

  function KeySetBox(acc: KeySetAcc, tag: Tag): KeySetAcc {
    if tag.context && tag.number <= 8 then acc.(err := First(acc.err, InvalidCommand)) else acc
  }

  function KeySetEnd(acc: KeySetAcc): Result<Field, Code> {
    if acc.err.Some? then Err(acc.err.value)
    else if {0, 1, 2, 3, 4, 5, 6, 7} <= acc.seen then Ok(Keys(acc.gks))
    else Err(InvalidCommand)
  }

  /** A result that leaves the fields container open at `rest`. */
  function Ends(r: Result<Field, Code>, rest: seq<Token>): Out<Field> {
    match r
    case Ok(f) => Done(f, rest)
    case Err(code) => Reject(code, false, rest)
  }

  function KeySetFrom(ts: seq<Token>, acc: KeySetAcc): (r: Out<Field>)
    ensures !r.Broken? ==> |r.rest| <= |ts|
    decreases |ts|
  {
    if ts == [] then Broken
    else match ts[0]
      case End => Ends(KeySetEnd(acc), ts[1..])
      case Leaf(tag, v) => KeySetFrom(ts[1..], KeySetLeaf(acc, tag, v))
      case Open(tag, _) =>
        var r := Drain(ts[1..], 1);
        if r.None? then Broken else KeySetFrom(r.value, KeySetBox(acc, tag))
  }

  /** A field whose value is one element. */
  function PlainField(k: Kind, v: Option<Value>): Result<Field, Code> {
    match k
    case Boolean => if v.Some? && v.value.Bool? then Ok(Flag(v.value.b)) else Err(InvalidCommand)
    case OctetString => if v.Some? && v.value.Octets? then Ok(Text(v.value.o)) else Err(InvalidCommand)
    case EndpointList => Err(InvalidCommand)
    case KeySet => Err(InvalidCommand)
    case _ => match NumberIn(v, Limit(k))
              case Ok(n) => Ok(Number(n))
              case Err(code) => Err(code)
  }

  /** The field decoder of `k` on element `t`, the stream being just past it. */
  function FieldAt(k: Kind, t: Token, ts: seq<Token>): (r: Out<Field>)
    ensures !r.Broken? ==> |r.rest| <= |ts|
  {
    if k.EndpointList? && t.Open? && t.box.Array? then EndpointsFrom(ts, [])
    else if k.KeySet? && t.Open? && t.box.Structure? then KeySetFrom(ts, NO_KEYS)
    else match PlainField(k, ValueOf(t))
      case Ok(f) => Done(f, ts)
      case Err(code) => Reject(code, false, SkipAnyway(t, ts))
  }

  type Schema = map<nat, Kind>

  type Fields = map<nat, Field>

  predicate Knows(schema: Schema, tag: Tag) {
    tag.context && tag.number in schema
  }

  predicate Complete(mandatory: set<nat>, seen: Fields) {
    mandatory <= seen.Keys
  }

  function Walk(ts: seq<Token>, schema: Schema, mandatory: set<nat>, seen: Fields): Out<Fields>
    decreases |ts|
  {
    if ts == [] then Broken
    else if ts[0].End? then
      if Complete(mandatory, seen) then Done(seen, ts[1..]) else Reject(InvalidCommand, true, ts[1..])
    else if !Knows(schema, ts[0].tag) then
      var r := Skip(ts[0], ts[1..]);
      if r.None? then Broken else Walk(r.value, schema, mandatory, seen)
    else match FieldAt(schema[ts[0].tag.number], ts[0], ts[1..])
      case Done(f, r) => Walk(r, schema, mandatory, seen[ts[0].tag.number := f])
      case Reject(code, _, r) => Reject(code, false, r)
      case Broken => Broken
  }

  // ---- the same on trees

  function EndpointsOf(ns: seq<Node>, out: seq<nat>): Result<Field, Code> {
    if ns == [] then Ok(Endpoints(out))
    else match NumberIn(if ns[0].Plain? then Some(ns[0].value) else None, 0x1_0000)
      case Ok(n) => EndpointsOf(ns[1..], out + [n])
      case Err(code) => Err(code)
  }

  function KeySetOf(ns: seq<Node>, acc: KeySetAcc): KeySetAcc {
    if ns == [] then acc
    else KeySetOf(ns[1..], if ns[0].Plain? then KeySetLeaf(acc, ns[0].tag, ns[0].value) else KeySetBox(acc, ns[0].tag))
  }

  function FieldOf(k: Kind, n: Node): Result<Field, Code> {
    if k.EndpointList? && n.Container? && n.box.Array? then EndpointsOf(n.children, [])
    else if k.KeySet? && n.Container? && n.box.Structure? then KeySetEnd(KeySetOf(n.children, NO_KEYS))
    else PlainField(k, if n.Plain? then Some(n.value) else None)
  }

  /** What a command's members say: the last value of each known field, or the first reject. */
  function Meaning(ns: seq<Node>, schema: Schema, seen: Fields): Result<Fields, Code> {
    if ns == [] then Ok(seen)
    else if !Knows(schema, ns[0].tag) then Meaning(ns[1..], schema, seen)
    else match FieldOf(schema[ns[0].tag.number], ns[0])
      case Ok(f) => Meaning(ns[1..], schema, seen[ns[0].tag.number := f])
      case Err(code) => Err(code)
  }

  // ---- the walkers agree with the trees

  function Head(n: Node): Token {
    if n.Plain? then Leaf(n.tag, n.value) else Open(n.tag, n.box)
  }

  function Tail(n: Node, rest: seq<Token>): seq<Token> {
    if n.Plain? then rest else Spell(n.children, [End] + rest)
  }

  lemma HeadTail(n: Node, rest: seq<Token>)
    ensures var ts := SpellNode(n, rest); ts != [] && ts[0] == Head(n) && ts[1..] == Tail(n, rest)
    ensures Skip(Head(n), Tail(n, rest)) == Some(rest) && SkipAnyway(Head(n), Tail(n, rest)) == rest
  {
    Peel(Head(n), Tail(n, rest));
    if n.Container? {
      DrainSpelled(n.children, rest);
    }
  }

  lemma {:induction false} EndpointsAgree(ns: seq<Node>, rest: seq<Token>, out: seq<nat>)
    ensures EndpointsFrom(Spell(ns, [End] + rest), out) == Ends(EndpointsOf(ns, out), rest)
  {
    if ns == [] {
      Peel(End, rest);
    } else {
      var more := Spell(ns[1..], [End] + rest);
      HeadTail(ns[0], more);
      match NumberIn(ValueOf(Head(ns[0])), 0x1_0000)
      case Ok(n) => EndpointsAgree(ns[1..], rest, out + [n]);
      case Err(_) => DrainSpelled(ns[1..], rest);
    }
  }

  lemma {:induction false} KeySetAgrees(ns: seq<Node>, rest: seq<Token>, acc: KeySetAcc)
    ensures KeySetFrom(Spell(ns, [End] + rest), acc) == Ends(KeySetEnd(KeySetOf(ns, acc)), rest)
  {
    if ns == [] {
      Peel(End, rest);
    } else {
      var more := Spell(ns[1..], [End] + rest);
      HeadTail(ns[0], more);
      KeySetAgrees(ns[1..], rest,
                   if ns[0].Plain? then KeySetLeaf(acc, ns[0].tag, ns[0].value) else KeySetBox(acc, ns[0].tag));
    }
  }

  /** A field decoder consumes its field's element and no more, whether it succeeds or rejects. */
  lemma FieldAgrees(k: Kind, n: Node, rest: seq<Token>)
    ensures FieldAt(k, Head(n), Tail(n, rest)) == Ends(FieldOf(k, n), rest)
  {
    HeadTail(n, rest);
    if n.Container? && k.EndpointList? {
      EndpointsAgree(n.children, rest, []);
    }
    if n.Container? && k.KeySet? {
      KeySetAgrees(n.children, rest, NO_KEYS);
    }
  }

  /**
   * Walking the fields of a command yields what its members say. The walk ends
   * past the container when it succeeds or its reject is marked consumed; after
   * any other reject one drain gets there.
   */
  lemma {:induction false} WalkAgrees(
      ns: seq<Node>, rest: seq<Token>, schema: Schema, mandatory: set<nat>, seen: Fields)
    ensures var w := Walk(Spell(ns, [End] + rest), schema, mandatory, seen);
            match Meaning(ns, schema, seen)
            case Ok(m) => w == if Complete(mandatory, m) then Done(m, rest) else Reject(InvalidCommand, true, rest)
            case Err(code) => w.Reject? && w.code == code && !w.consumed && Drain(w.rest, 1) == Some(rest)
  {
    if ns == [] {
      Peel(End, rest);
    } else {
      var more := Spell(ns[1..], [End] + rest);
      HeadTail(ns[0], more);
      if !Knows(schema, ns[0].tag) {
        WalkAgrees(ns[1..], rest, schema, mandatory, seen);
      } else {
        var k := schema[ns[0].tag.number];
        FieldAgrees(k, ns[0], more);
        match FieldOf(k, ns[0])
        case Ok(f) => WalkAgrees(ns[1..], rest, schema, mandatory, seen[ns[0].tag.number := f]);
        case Err(_) => DrainSpelled(ns[1..], rest);
      }
    }
  }

  // ---- what a field has to be, member by member

  predicate Carries(ns: seq<Node>, number: nat) {
    exists i :: 0 <= i < |ns| && ns[i].tag == Tag(true, number)
  }

  lemma CarriesTail(ns: seq<Node>, t: nat)
    requires ns != []
    ensures Carries(ns, t) == (ns[0].tag == Tag(true, t) || Carries(ns[1..], t))
  {
    if Carries(ns, t) && ns[0].tag != Tag(true, t) {
      var i :| 0 <= i < |ns| && ns[i].tag == Tag(true, t);
      assert ns[1..][i - 1].tag == Tag(true, t);
    }
    if Carries(ns[1..], t) {
      var i :| 0 <= i < |ns[1..]| && ns[1..][i].tag == Tag(true, t);
      assert ns[i + 1].tag == Tag(true, t);
    }
  }

  predicate IsUint(n: Node, limit: nat) {
    n.Plain? && n.value.Unsigned? && n.value.n as nat < limit
  }

  /** A member of a group key set that has a known tag has that tag's type. */
  predicate KeyMember(n: Node) {
    n.tag.context && n.tag.number <= 8 ==>
      && n.Plain?
      && (n.tag.number == 0 ==> IsUint(n, 0x1_0000))
      && (n.tag.number == 1 ==> IsUint(n, 0x100))
      && (n.tag.number in {2, 4, 6} ==> n.value.Null? || n.value.Octets?)
      && (n.tag.number in {3, 5, 7} ==> n.value.Null? || n.value.Unsigned?)
      && (n.tag.number == 8 ==> n.value.Unsigned?)
  }

  predicate Typed(k: Kind, n: Node) {
    match k
    case Uint16 => IsUint(n, 0x1_0000)
    case Enum8 => IsUint(n, 0x100)
    case Boolean => n.Plain? && n.value.Bool?
    case OctetString => n.Plain? && n.value.Octets?
    case EndpointList =>
      n.Container? && n.box.Array? && forall i :: 0 <= i < |n.children| ==> IsUint(n.children[i], 0x1_0000)
    case KeySet =>
      && n.Container? && n.box.Structure?
      && (forall i :: 0 <= i < |n.children| ==> KeyMember(n.children[i]))
      && (forall t :: 0 <= t <= 7 ==> Carries(n.children, t))
  }

  lemma {:induction false} EndpointsOk(ns: seq<Node>, out: seq<nat>)
    ensures EndpointsOf(ns, out).Ok? <==> forall i :: 0 <= i < |ns| ==> IsUint(ns[i], 0x1_0000)
    ensures EndpointsOf(ns, out).Ok? ==>
              && EndpointsOf(ns, out).value.Endpoints?
              && var es := EndpointsOf(ns, out).value.es;
                 |es| == |out| + |ns| && out <= es
                 && forall i :: 0 <= i < |ns| ==> IsUint(ns[i], 0x1_0000) && ns[i].value.n as nat == es[|out| + i]
  {
    if ns != [] {
      assert forall i :: 0 < i < |ns| ==> ns[i] == ns[1..][i - 1];
      if IsUint(ns[0], 0x1_0000) { EndpointsOk(ns[1..], out + [ns[0].value.n as nat]); }
    }
  }

  function KeySetNode(acc: KeySetAcc, n: Node): KeySetAcc {
    if n.Plain? then KeySetLeaf(acc, n.tag, n.value) else KeySetBox(acc, n.tag)
  }

  lemma KeyNodeOk(acc: KeySetAcc, n: Node)
    ensures KeySetNode(acc, n).err.None? <==> acc.err.None? && KeyMember(n)
    ensures KeyMember(n) ==>
              KeySetNode(acc, n).seen == acc.seen + if n.tag.context && n.tag.number <= 8 then {n.tag.number} else {}
  {}

  lemma {:induction false} KeySetOk(ns: seq<Node>, acc: KeySetAcc)
    ensures KeySetOf(ns, acc).err.None?
       <==> acc.err.None? && forall i :: 0 <= i < |ns| ==> KeyMember(ns[i])
    ensures KeySetOf(ns, acc).err.None? ==>
              forall t :: 0 <= t <= 8 ==> (t in KeySetOf(ns, acc).seen <==> t in acc.seen || Carries(ns, t))
  {
    if ns != [] {
      KeyNodeOk(acc, ns[0]);
      KeySetOk(ns[1..], KeySetNode(acc, ns[0]));
      assert forall i :: 0 < i < |ns| ==> ns[i] == ns[1..][i - 1];
      forall t: nat ensures Carries(ns, t) == (ns[0].tag == Tag(true, t) || Carries(ns[1..], t)) {
        CarriesTail(ns, t);
      }
    }
  }

  /** The decoder takes a field iff it is typed, member by member. */
  lemma FieldIsOk(k: Kind, n: Node)
    ensures FieldOf(k, n).Ok? <==> Typed(k, n)
  {
    if n.Container? {
      EndpointsOk(n.children, []);
      KeySetOk(n.children, NO_KEYS);
    }
  }

  /** What a field that is taken holds. */
  predicate HoldsValue(k: Kind, n: Node, f: Field)
    requires Typed(k, n)
  {
    match k
    case Uint16 => f.Number? && n.value.n as nat == f.n
    case Enum8 => f.Number? && n.value.n as nat == f.n
    case Boolean => f == Flag(n.value.b)
    case OctetString => f == Text(n.value.o)
    case EndpointList =>
      && f.Endpoints? && |f.es| == |n.children|
      && forall i :: 0 <= i < |f.es| ==> n.children[i].value.n as nat == f.es[i]
    case KeySet => f.Keys? && Holds(f.gks, Latest(n.children, map[]))
  }

  lemma FieldMeans(k: Kind, n: Node)
    requires Typed(k, n)
    ensures FieldOf(k, n).Ok? && HoldsValue(k, n, FieldOf(k, n).value)
  {
    FieldIsOk(k, n);
    if k.EndpointList? { EndpointsOk(n.children, []); }
    if k.KeySet? { KeySetMeans(n); }
  }

  /** A number too large is a constraint error; any other element, or another container, is an invalid command. */
  lemma FieldRejects(k: Kind, n: Node)
    requires !Typed(k, n)
    requires !(k.EndpointList? && n.Container? && n.box.Array?) && !(k.KeySet? && n.Container? && n.box.Structure?)
    ensures FieldOf(k, n)
         == Err(if (k.Uint16? || k.Enum8?) && n.Plain? && n.value.Unsigned? then ConstraintError else InvalidCommand)
  {}

  /** In an endpoint list the first bad entry decides. */
  lemma {:induction false} EndpointsReject(ns: seq<Node>, out: seq<nat>, i: nat)
    requires i < |ns| && !IsUint(ns[i], 0x1_0000) && forall j :: 0 <= j < i ==> IsUint(ns[j], 0x1_0000)
    ensures EndpointsOf(ns, out)
         == Err(if ns[i].Plain? && ns[i].value.Unsigned? then ConstraintError else InvalidCommand)
  {
    if i > 0 {
      assert ns[i] == ns[1..][i - 1] && forall j :: 0 <= j < i - 1 ==> ns[1..][j] == ns[j + 1];
      EndpointsReject(ns[1..], out + [ns[0].value.n as nat], i - 1);
    }
  }

  lemma {:induction false} FirstErrorStays(ns: seq<Node>, acc: KeySetAcc)
    requires acc.err.Some?
    ensures KeySetOf(ns, acc).err == acc.err
  {
    if ns != [] {
      assert KeySetNode(acc, ns[0]).err == acc.err;
      FirstErrorStays(ns[1..], KeySetNode(acc, ns[0]));
    }
  }

  /** In a key set the first bad member decides: too large an id or policy is a constraint error. */
  lemma {:induction false} KeySetRejects(ns: seq<Node>, acc: KeySetAcc, i: nat)
    requires acc.err.None? && i < |ns| && !KeyMember(ns[i]) && forall j :: 0 <= j < i ==> KeyMember(ns[j])
    ensures KeySetOf(ns, acc).err
         == Some(if ns[i].Plain? && ns[i].value.Unsigned? && ns[i].tag.number <= 1 then ConstraintError
                 else InvalidCommand)
  {
    KeyNodeOk(acc, ns[0]);
    if i > 0 {
      assert ns[i] == ns[1..][i - 1] && forall j :: 0 <= j < i - 1 ==> ns[1..][j] == ns[j + 1];
      KeySetRejects(ns[1..], KeySetNode(acc, ns[0]), i - 1);
    } else {
      FirstErrorStays(ns[1..], KeySetNode(acc, ns[0]));
    }
  }

  /** The last field under a tag is the one that counts. */
  lemma {:induction false} LastCounts(ns: seq<Node>, schema: Schema, seen: Fields, i: nat)
    requires Meaning(ns, schema, seen).Ok? && i < |ns| && Knows(schema, ns[i].tag)
    requires forall j :: i < j < |ns| ==> ns[j].tag != ns[i].tag
    ensures
      var t, m := ns[i].tag.number, Meaning(ns, schema, seen).value;
      Typed(schema[t], ns[i]) && t in m && HoldsValue(schema[t], ns[i], m[t])
  {
    var seen' := seen;
    if Knows(schema, ns[0].tag) {
      var t := ns[0].tag.number;
      FieldIsOk(schema[t], ns[0]);
      seen' := seen[t := FieldOf(schema[t], ns[0]).value];
      if i == 0 { FieldMeans(schema[t], ns[0]); }
    }
    if i > 0 {
      assert ns[i] == ns[1..][i - 1];
      LastCounts(ns[1..], schema, seen', i - 1);
    } else {
      assert forall j :: 0 <= j < |ns[1..]| ==> ns[1..][j] == ns[j + 1];
      OthersKeep(ns[1..], schema, seen', ns[0].tag.number);
    }
  }

  lemma {:induction false} OthersKeep(ns: seq<Node>, schema: Schema, seen: Fields, t: nat)
    requires Meaning(ns, schema, seen).Ok? && t in seen && forall j :: 0 <= j < |ns| ==> ns[j].tag != Tag(true, t)
    ensures t in Meaning(ns, schema, seen).value && Meaning(ns, schema, seen).value[t] == seen[t]
  {
    if ns != [] {
      assert forall j :: 0 <= j < |ns[1..]| ==> ns[1..][j] == ns[j + 1];
      if Knows(schema, ns[0].tag) {
        var f := FieldOf(schema[ns[0].tag.number], ns[0]);
        OthersKeep(ns[1..], schema, seen[ns[0].tag.number := f.value], t);
      } else {
        OthersKeep(ns[1..], schema, seen, t);
      }
    }
  }

  /** The first field that is not typed decides the code. */
  lemma {:induction false} FirstRejects(ns: seq<Node>, schema: Schema, seen: Fields, i: nat)
    requires i < |ns| && !WellFormed(ns[i], schema) && forall j :: 0 <= j < i ==> WellFormed(ns[j], schema)
    ensures FieldOf(schema[ns[i].tag.number], ns[i]).Err?
    ensures Meaning(ns, schema, seen) == Err(FieldOf(schema[ns[i].tag.number], ns[i]).error)
  {
    if Knows(schema, ns[0].tag) { FieldIsOk(schema[ns[0].tag.number], ns[0]); }
    if i > 0 {
      assert ns[i] == ns[1..][i - 1];
      assert forall j :: 0 <= j < i - 1 ==> ns[1..][j] == ns[j + 1];
      if Knows(schema, ns[0].tag) {
        var t := ns[0].tag.number;
        FirstRejects(ns[1..], schema, seen[t := FieldOf(schema[t], ns[0]).value], i - 1);
      } else {
        FirstRejects(ns[1..], schema, seen, i - 1);
      }
    }
  }

  // ---- what a group key set says

  function Noted(n: Node, m: map<nat, Value>): map<nat, Value> {
    if n.Plain? && n.tag.context && n.tag.number <= 8 then m[n.tag.number := n.value] else m
  }

  /** The last value under each known tag. */
  function Latest(ns: seq<Node>, m: map<nat, Value>): map<nat, Value> {
    if ns == [] then m else Latest(ns[1..], Noted(ns[0], m))
  }

  predicate IsNumber(m: map<nat, Value>, t: nat, n: nat) {
    t in m ==> m[t].Unsigned? && m[t].n as nat == n
  }

  predicate IsKey(m: map<nat, Value>, t: nat, o: seq<byte>) {
    t in m ==> m[t] == Octets(o) || (m[t] == Null && o == [])
  }

  predicate IsEpoch(m: map<nat, Value>, t: nat, n: u64) {
    t in m ==> m[t] == Unsigned(n) || (m[t] == Null && n == 0)
  }

  /** Each field of the set is the value under its tag. */
  predicate Holds(g: GroupKeySet, m: map<nat, Value>) {
    && IsNumber(m, 0, g.id) && IsNumber(m, 1, g.policy)
    && IsKey(m, 2, g.key0) && IsEpoch(m, 3, g.start0)
    && IsKey(m, 4, g.key1) && IsEpoch(m, 5, g.start1)
    && IsKey(m, 6, g.key2) && IsEpoch(m, 7, g.start2)
    && (8 in m ==> m[8].Unsigned? && g.multicast == m[8].n as nat % 0x100)
  }

  lemma NodeHolds(acc: KeySetAcc, n: Node, m: map<nat, Value>)
    requires Holds(acc.gks, m) && KeyMember(n)
    ensures Holds(KeySetNode(acc, n).gks, Noted(n, m))
  {}

  lemma {:induction false} AllHold(ns: seq<Node>, acc: KeySetAcc, m: map<nat, Value>)
    requires Holds(acc.gks, m) && forall i :: 0 <= i < |ns| ==> KeyMember(ns[i])
    ensures Holds(KeySetOf(ns, acc).gks, Latest(ns, m))
  {
    if ns != [] {
      NodeHolds(acc, ns[0], m);
      AllHold(ns[1..], KeySetNode(acc, ns[0]), Noted(ns[0], m));
    }
  }

  /** A group key set that is taken holds, field by field, the last value under the field's tag. */
  lemma KeySetMeans(n: Node)
    requires Typed(KeySet, n)
    ensures FieldOf(KeySet, n).Ok? && FieldOf(KeySet, n).value.Keys?
    ensures Holds(FieldOf(KeySet, n).value.gks, Latest(n.children, map[]))
  {
    FieldIsOk(KeySet, n);
    AllHold(n.children, NO_KEYS, map[]);
  }

  predicate WellFormed(n: Node, schema: Schema) {
    Knows(schema, n.tag) ==> Typed(schema[n.tag.number], n)
  }

  lemma {:induction false} MeaningIsOk(ns: seq<Node>, schema: Schema, seen: Fields)
    ensures Meaning(ns, schema, seen).Ok? == forall i :: 0 <= i < |ns| ==> WellFormed(ns[i], schema)
    ensures Meaning(ns, schema, seen).Ok? ==>
              forall t :: t in Meaning(ns, schema, seen).value <==> (t in seen || (t in schema && Carries(ns, t)))
  {
    if ns != [] {
      if Knows(schema, ns[0].tag) { FieldIsOk(schema[ns[0].tag.number], ns[0]); }
      var seen' := if Knows(schema, ns[0].tag) && WellFormed(ns[0], schema)
                   then seen[ns[0].tag.number := FieldOf(schema[ns[0].tag.number], ns[0]).value] else seen;
      MeaningIsOk(ns[1..], schema, seen');
      forall t ensures Carries(ns, t) == (ns[0].tag == Tag(true, t) || Carries(ns[1..], t)) {
        CarriesTail(ns, t);
      }
      assert forall i :: 0 < i < |ns| ==> ns[i] == ns[1..][i - 1];
    }
  }

  /** A command is accepted iff every known field has its type and every mandatory one is there. */
  lemma AcceptedIff(ns: seq<Node>, rest: seq<Token>, schema: Schema, mandatory: set<nat>)
    requires mandatory <= schema.Keys
    ensures Walk(Spell(ns, [End] + rest), schema, mandatory, map[]).Done?
            == ((forall i :: 0 <= i < |ns| ==> WellFormed(ns[i], schema))
                && (forall t :: t in mandatory ==> Carries(ns, t)))
  {
    WalkAgrees(ns, rest, schema, mandatory, map[]);
    MeaningIsOk(ns, schema, map[]);
  }
}
