/**
 * The walkers as they run: loops over a decoder that moves through its
 * stream, each proved to do what TlvWalkers says of the stream ahead.
 */
module TlvDecoder {
  import opened Bytes
  import opened TlvWalkers

  class Decoder {
    const tokens: seq<Token>
    var pos: nat

    ghost predicate Valid()
      reads this
    {
      pos <= |tokens|
    }

    /** The stream ahead. */
    ghost function Ahead(): seq<Token>
      requires Valid()
      reads this
    {
      tokens[pos..]
    }

    constructor (ts: seq<Token>)
      ensures Valid() && Ahead() == ts
    {
      tokens, pos := ts, 0;
    }

    method Next() returns (t: Option<Token>)
      requires Valid()
      modifies this
      ensures Valid() && Ahead() == if old(Ahead()) == [] then [] else old(Ahead())[1..]
      ensures t == if old(Ahead()) == [] then None else Some(old(Ahead())[0])
    {
      if pos == |tokens| { return None; }
      t := Some(tokens[pos]);
      pos := pos + 1;
    }

    /** A depth counter; on a stream that ends too early the decoder stands at its end. */
    method DrainContainer() returns (ok: bool)
      requires Valid()
      modifies this
      ensures Valid() && ok == Drain(old(Ahead()), 1).Some?
      ensures Ahead() == if ok then Drain(old(Ahead()), 1).value else []
    {
      var depth := 1;
      while depth > 0
        invariant Valid() && depth >= 0 && Drain(old(Ahead()), 1) == Drain(Ahead(), depth)
        decreases |tokens| - pos, depth
      {
        var t := Next();
        if t.None? { return false; }
        if t.value.Open? { depth := depth + 1; }
        if t.value.End? { depth := depth - 1; }
      }
      return true;
    }

    method SkipValue(t: Token) returns (ok: bool)
      requires Valid()
      modifies this
      ensures Valid() && ok == Skip(t, old(Ahead())).Some?
      ensures Ahead() == SkipAnyway(t, old(Ahead()))
    {
      ok := true;
      if t.Open? { ok := DrainContainer(); }
    }

    method ReadScenesTree() returns (out: Option<seq<Node>>)
      requires Valid()
      modifies this
      ensures Valid() && out == if ReadTree(old(Ahead())).None? then None else Some(ReadTree(old(Ahead())).value.0)
      ensures out.Some? ==> Ahead() == ReadTree(old(Ahead())).value.1
      ensures pos >= old(pos)
      decreases |tokens| - pos
    {
      var nodes: seq<Node> := [];
      ghost var start := Ahead();
      PrecededByNone(ReadTree(start));
      while true
        invariant Valid() && pos >= old(pos)
        invariant ReadTree(start) == Preceded(nodes, ReadTree(Ahead()))
        decreases |tokens| - pos
      {
        var t := Next();
        if t.None? { return None; }
        if t.value.End? {
          assert nodes + [] == nodes;
          return Some(nodes);
        }
        if t.value.Leaf? {
          PrecededByOneMore(nodes, Plain(t.value.tag, t.value.value), ReadTree(Ahead()));
          nodes := nodes + [Plain(t.value.tag, t.value.value)];
        } else {
          var children := ReadScenesTree();
          if children.None? { return None; }
          PrecededByOneMore(nodes, Container(t.value.tag, t.value.box, children.value), ReadTree(Ahead()));
          nodes := nodes + [Container(t.value.tag, t.value.box, children.value)];
        }
      }
    }

    /** The list is consumed also when an entry is malformed. */
    method ReadEndpoints() returns (r: Verdict<Field>)
      requires Valid()
      modifies this
      ensures Valid() && pos >= old(pos) && Ended(r, EndpointsFrom(old(Ahead()), []), Ahead())
    {
      var out: seq<nat> := [];
      while true
        invariant Valid() && pos >= old(pos) && EndpointsFrom(old(Ahead()), []) == EndpointsFrom(Ahead(), out)
        decreases |tokens| - pos
      {
        var t := Next();
        if t.None? { return Failed; }
        if t.value.End? { return Good(Endpoints(out)); }
        var n := NumberIn(ValueOf(t.value), 0x1_0000);
        if n.Err? {
          var _ := SkipValue(t.value);
          var drained := DrainContainer();
          if !drained { return Failed; }
          return Bad(n.error, false);
        }
        out := out + [n.value];
      }
    }

    method ReadGroupKeySet() returns (r: Verdict<Field>)
      requires Valid()
      modifies this
      ensures Valid() && pos >= old(pos) && Ended(r, KeySetFrom(old(Ahead()), NO_KEYS), Ahead())
    {
      var acc := NO_KEYS;
      while true
        invariant Valid() && pos >= old(pos) && KeySetFrom(old(Ahead()), NO_KEYS) == KeySetFrom(Ahead(), acc)
        decreases |tokens| - pos
      {
        var t := Next();
        if t.None? { return Failed; }
        match t.value
        case End =>
          var e := KeySetEnd(acc);
          return if e.Ok? then Good(e.value) else Bad(e.error, false);
        case Leaf(tag, v) => acc := KeySetLeaf(acc, tag, v);
        case Open(tag, _) =>
          var drained := DrainContainer();
          if !drained { return Failed; }
          acc := KeySetBox(acc, tag);
      }
    }

    /** One field decoder; on a reject the element has been consumed. */
    method DecodeField(k: Kind, t: Token) returns (r: Verdict<Field>)
      requires Valid()
      modifies this
      ensures Valid() && pos >= old(pos) && Ended(r, FieldAt(k, t, old(Ahead())), Ahead())
    {
      if k.EndpointList? && t.Open? && t.box.Array? {
        r := ReadEndpoints();
      } else if k.KeySet? && t.Open? && t.box.Structure? {
        r := ReadGroupKeySet();
      } else {
        var f := PlainField(k, ValueOf(t));
        if f.Ok? { return Good(f.value); }
        var _ := SkipValue(t);
        return Bad(f.error, false);
      }
    }

    method WalkCommandFields(schema: Schema, mandatory: set<nat>) returns (r: Verdict<Fields>)
      requires Valid()
      modifies this
      ensures Valid() && Ended(r, Walk(old(Ahead()), schema, mandatory, map[]), Ahead())
    {
      var seen: Fields := map[];
      while true
        invariant Valid() && Walk(old(Ahead()), schema, mandatory, map[]) == Walk(Ahead(), schema, mandatory, seen)
        decreases |tokens| - pos
      {
        var t := Next();
        if t.None? { return Failed; }
        if t.value.End? {
          return if Complete(mandatory, seen) then Good(seen) else Bad(InvalidCommand, true);
        }
        if !Knows(schema, t.value.tag) {
          var skipped := SkipValue(t.value);
          if !skipped { return Failed; }
        } else {
          var f := DecodeField(schema[t.value.tag.number], t.value);
          match f
          case Good(v) => seen := seen[t.value.tag.number := v];
          case Bad(code, _) => return Bad(code, false);
          case Failed => return Failed;
        }
      }
    }

    /** A command whose only field is a mandatory uint16 at tag 0. */
    method DecodeSingleUint16() returns (r: Verdict<Fields>)
      requires Valid()
      modifies this
      ensures Valid() && Ended(r, Walk(old(Ahead()), map[0 := Uint16], {0}, map[]), Ahead())
    {
      var v: nat, present := 0, false;
      while true
        invariant Valid()
        invariant Walk(old(Ahead()), map[0 := Uint16], {0}, map[])
               == Walk(Ahead(), map[0 := Uint16], {0}, if present then map[0 := Number(v)] else map[])
        decreases |tokens| - pos
      {
        var t := Next();
        if t.None? { return Failed; }
        if t.value.End? {
          return if present then Good(map[0 := Number(v)]) else Bad(InvalidCommand, true);
        }
        if !t.value.tag.context || t.value.tag.number != 0 {
          var skipped := SkipValue(t.value);
          if !skipped { return Failed; }
        } else {
          var n := NumberIn(ValueOf(t.value), 0x1_0000);
          if n.Err? {
            if t.value.Open? { var _ := DrainContainer(); }
            return Bad(n.error, false);
          }
          assert map[0 := Number(v)][0 := Number(n.value)] == map[0 := Number(n.value)];
          v, present := n.value, true;
        }
      }
    }

    /** A command whose only field is a mandatory group key set at tag 0. */
    method DecodeKeySetWrite() returns (r: Verdict<Fields>)
      requires Valid()
      modifies this
      ensures Valid() && Ended(r, Walk(old(Ahead()), map[0 := KeySet], {0}, map[]), Ahead())
    {
      var seen: Fields := map[];
      while true
        invariant Valid()
        invariant Walk(old(Ahead()), map[0 := KeySet], {0}, map[]) == Walk(Ahead(), map[0 := KeySet], {0}, seen)
        invariant seen.Keys <= {0}
        decreases |tokens| - pos
      {
        var t := Next();
        if t.None? { return Failed; }
        if t.value.End? {
          return if 0 in seen then Good(seen) else Bad(InvalidCommand, true);
        }
        if !t.value.tag.context || t.value.tag.number != 0 {
          var skipped := SkipValue(t.value);
          if !skipped { return Failed; }
        } else if !t.value.Open? || !t.value.box.Structure? {
          var _ := SkipValue(t.value);
          return Bad(InvalidCommand, false);
        } else {
          var f := ReadGroupKeySet();
          match f
          case Good(keys) => seen := seen[0 := keys];
          case Bad(code, _) => return Bad(code, false);
          case Failed => return Failed;
        }
      }
    }
  }

  /** What a decoder returns; the stream position is its state. */
  datatype Verdict<T> = Good(value: T) | Bad(code: Code, consumed: bool) | Failed

  /** The verdict is the specified one, and the stream is where it says. */
  ghost predicate Ended<T>(v: Verdict<T>, out: Out<T>, ahead: seq<Token>) {
    match out
    case Done(value, rest) => v == Good(value) && ahead == rest
    case Reject(code, consumed, rest) => v == Bad(code, consumed) && ahead == rest
    case Broken => v == Failed
  }

  /** A tree read after `nodes`. */
  ghost function Preceded(nodes: seq<Node>, r: Option<(seq<Node>, seq<Token>)>): Option<(seq<Node>, seq<Token>)> {
    if r.None? then None else Some((nodes + r.value.0, r.value.1))
  }

  lemma PrecededByNone(r: Option<(seq<Node>, seq<Token>)>)
    ensures Preceded([], r) == r
  {
    assert r.Some? ==> [] + r.value.0 == r.value.0;
  }

  lemma PrecededByOneMore(nodes: seq<Node>, n: Node, r: Option<(seq<Node>, seq<Token>)>)
    ensures Preceded(nodes, Preceded([n], r)) == Preceded(nodes + [n], r)
  {
    assert r.Some? ==> nodes + ([n] + r.value.0) == nodes + [n] + r.value.0;
  }
}
