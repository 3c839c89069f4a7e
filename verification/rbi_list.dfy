/** The pending list of the ad insertion filter: tags and payloads in one list, appended to, taken from and flushed
    in place. */
module RbiList {
  import opened Bytes

  /** An event or a buffer, told apart from others of its kind. */
  datatype Item = Event(id: nat) | Buffer(id: nat)

  /** What one node of the list points to: a tag, or the item its tag announces. */
  datatype Node = EventTag | BufferTag | Payload(item: Item)

  function Tag(i: Item): Node { if i.Event? then EventTag else BufferTag }

  /** The list that holds the given items. */
  function Flat(items: seq<Item>): seq<Node> {
    if items == [] then [] else [Tag(items[0]), Payload(items[0])] + Flat(items[1..])
  }

  /** Tags at even positions, each in front of a payload of its kind. */
  predicate Alternates(list: seq<Node>) {
    |list| % 2 == 0 && forall k :: 0 <= k < |list| / 2 ==> Pair(list, k)
  }

  predicate Pair(list: seq<Node>, k: nat)
    requires 2 * k + 1 < |list|
  {
    list[2 * k + 1].Payload? && list[2 * k] == Tag(list[2 * k + 1].item)
  }

  lemma {:induction false} FlatAppend(a: seq<Item>, b: seq<Item>)
    ensures Flat(a + b) == Flat(a) + Flat(b)
  {
    hide Tag;
    if a == [] {
      assert a + b == b;
    } else {
      assert (a + b)[1..] == a[1..] + b;
      FlatAppend(a[1..], b);
    }
  }

  lemma FlatSnoc(a: seq<Item>, i: Item)
    ensures Flat(a + [i]) == Flat(a) + [Tag(i)] + [Payload(i)]
  {
    hide Tag;
    FlatAppend(a, [i]);
    assert [i][1..] == [];
    assert Flat([i]) == [Tag(i), Payload(i)];
  }

  lemma {:induction false} FlatLength(items: seq<Item>)
    ensures |Flat(items)| == 2 * |items|
  {
    hide Tag;
    if items != [] {
      FlatLength(items[1..]);
    }
  }

  /** The items of an alternating list. */
  function Items(list: seq<Node>): seq<Item>
    requires Alternates(list)
    decreases |list|
  {
    if list == [] then [] else
      assert Pair(list, 0);
      RestAlternates(list);
      [list[1].item] + Items(list[2..])
  }

  lemma RestAlternates(list: seq<Node>)
    requires Alternates(list) && list != []
    ensures |list| >= 2 && Alternates(list[2..])
  {
    hide Tag;
    var rest := list[2..];
    forall k | 0 <= k < |rest| / 2 ensures Pair(rest, k) {
      assert Pair(list, k + 1);
    }
  }

  lemma {:induction false} FlatOfItems(list: seq<Node>)
    requires Alternates(list)
    ensures Flat(Items(list)) == list
    decreases |list|
  {
    hide Tag;
    if list != [] {
      RestAlternates(list);
      assert Pair(list, 0);
      FlatOfItems(list[2..]);
      assert list == [list[0], list[1]] + list[2..];
    }
  }

  lemma {:induction false} FlatAlternates(items: seq<Item>)
    ensures Alternates(Flat(items)) && Items(Flat(items)) == items
  {
    hide Tag;
    FlatLength(items);
    if items != [] {
      var rest := Flat(items[1..]);
      FlatAlternates(items[1..]);
      var list := Flat(items);
      assert list[2..] == rest;
      forall k | 0 <= k < |list| / 2 ensures Pair(list, k) {
        if k > 0 {
          assert Pair(rest, k - 1);
        }
      }
    }
  }

  /** The lists with this layout are exactly those that hold some items. */
  lemma AlternatesExactly(list: seq<Node>)
    ensures Alternates(list) <==> exists items: seq<Item> :: list == Flat(items)
  {
    hide Alternates, Flat;
    if Alternates(list) {
      FlatOfItems(list);
    }
    if exists items: seq<Item> :: list == Flat(items) {
      var items: seq<Item> :| list == Flat(items);
      FlatAlternates(items);
    }
  }

  // ------------------------------------------------------------------ flush

  function Events(items: seq<Item>): seq<Item> {
    if items == [] then [] else (if items[0].Event? then [items[0]] else []) + Events(items[1..])
  }

  function Buffers(items: seq<Item>): seq<Item> {
    if items == [] then [] else (if items[0].Buffer? then [items[0]] else []) + Buffers(items[1..])
  }

  /** Flushing splits the items: every buffer is released, every event stays, none twice. */
  lemma {:induction false} FlushSplits(items: seq<Item>)
    ensures multiset(items) == multiset(Events(items)) + multiset(Buffers(items))
    ensures forall i :: i in Events(items) ==> i.Event?
    ensures forall i :: i in Buffers(items) ==> i.Buffer?
  {
    if items != [] {
      FlushSplits(items[1..]);
      assert items == [items[0]] + items[1..];
    }
  }

  /** Increasing identities stay increasing: what is left is in its original order. */
  ghost predicate Increasing(items: seq<Item>) {
    forall i, j :: 0 <= i < j < |items| ==> items[i].id < items[j].id
  }

  lemma {:induction false} EventsAbove(items: seq<Item>, low: int)
    requires Increasing(items) && forall i :: 0 <= i < |items| ==> low < items[i].id
    ensures Increasing(Events(items)) && forall i :: 0 <= i < |Events(items)| ==> low < Events(items)[i].id
  {
    if items != [] {
      EventsAbove(items[1..], items[0].id);
    }
  }

  lemma {:induction false} EventsSnoc(a: seq<Item>, i: Item)
    ensures Events(a + [i]) == Events(a) + (if i.Event? then [i] else [])
    ensures Buffers(a + [i]) == Buffers(a) + (if i.Buffer? then [i] else [])
  {
    if a == [] {
      assert a + [i] == [i];
      assert [i][1..] == [];
    } else {
      var event, buffer := if a[0].Event? then [a[0]] else [], if a[0].Buffer? then [a[0]] else [];
      assert (a + [i])[1..] == a[1..] + [i];
      EventsSnoc(a[1..], i);
      Associates(event, Events(a[1..]), if i.Event? then [i] else []);
      Associates(buffer, Buffers(a[1..]), if i.Buffer? then [i] else []);
    }
  }

  class PendingList {
    var nodes: seq<Node>
    var released: seq<Item>
    ghost var items: seq<Item>

    ghost predicate Valid()
      reads this
    {
      nodes == Flat(items)
    }

    constructor ()
      ensures Valid() && items == [] && released == []
    {
      nodes, items, released := [], [], [];
    }

    /** The two appends of add_event and add_buffer. */
    method Append(i: Item)
      requires Valid()
      modifies this
      ensures Valid() && items == old(items) + [i] && released == old(released)
    {
      FlatSnoc(items, i);
      nodes := nodes + [Tag(i)];
      nodes := nodes + [Payload(i)];
      items := items + [i];
    }

    /** g_list_delete_link on the node at an index. */
    method DeleteLink(at: nat)
      requires at < |nodes|
      modifies `nodes
      ensures nodes == old(nodes[..at] + nodes[at + 1..])
    {
      nodes := nodes[..at] + nodes[at + 1..];
    }

    /** The part of the loop function that takes the first item, tag and payload. */
    method TakeFirst() returns (first: Option<Item>)
      requires Valid()
      modifies this
      ensures Valid() && released == old(released)
      ensures old(items) == [] ==> first == None && items == []
      ensures old(items) != [] ==> first == Some(old(items)[0]) && items == old(items)[1..]
    {
      first := None;
      hide Flat;
      FirstOf(items);
      if nodes != [] {
        DeleteLink(0);
        first := Some(nodes[0].item);
        DeleteLink(0);
        items := items[1..];
      }
    }

    static lemma FirstOf(items: seq<Item>)
      ensures Flat(items) == [] <==> items == []
      ensures items != [] ==> |Flat(items)| >= 2 && Flat(items)[1] == Payload(items[0]) && Flat(items)[1..][1..] == Flat(items[1..])
    {
    }

    /** One turn of the walk: a buffer's tag and payload are deleted behind the walking pointer, an event is passed. */
    method FlushPair(walk: nat, ghost kept: seq<Node>, ghost i: Item, ghost rest: seq<Node>) returns (walk': nat)
      requires nodes == kept + ([Tag(i), Payload(i)] + rest) && walk == |kept|
      modifies `nodes, `released
      ensures i.Event? ==> nodes == old(nodes) && released == old(released) && walk' == |kept| + 2
      ensures i.Buffer? ==> nodes == kept + rest && released == old(released) + [i] && walk' == |kept|
    {
      Walked(kept, Tag(i), Payload(i), rest);
      walk' := walk;
      var free := None;
      if nodes[walk'] == BufferTag {
        free := Some(walk');
      }
      walk' := walk' + 1;
      if free.Some? {
        DeleteLink(free.value);
        walk' := walk' - 1;
        free := Some(walk');
      }
      walk' := walk' + 1;
      if free.Some? {
        released := released + [nodes[free.value].item];
        DeleteLink(free.value);
        walk' := walk' - 1;
      }
    }

    /** gst_rbifilter_flush. */
    method Flush()
      requires Valid()
      modifies this
      ensures Valid() && items == Events(old(items)) && released == old(released) + Buffers(old(items))
    {
      hide Flat, Events, Buffers, Tag;
      ghost var all, before := items, released;
      ghost var done := 0;
      var walk := 0;
      Untouched(all);
      while walk < |nodes|
        invariant done <= |all| && nodes == Flat(Events(all[..done])) + Flat(all[done..])
        invariant walk == |Flat(Events(all[..done]))|
        invariant released == before + Buffers(all[..done])
        decreases |all| - done
      {
        FlatLength(all[done..]);
        ghost var kept, i, rest := Flat(Events(all[..done])), all[done], Flat(all[done + 1..]);
        NextPair(all, done);
        walk := FlushPair(walk, kept, i, rest);
        Regrouped(kept, [Tag(i), Payload(i)], rest);
        done := done + 1;
      }
      AllWalked(all, done);
      items := Events(all);
    }

    static lemma Regrouped(a: seq<Node>, b: seq<Node>, c: seq<Node>)
      ensures a + (b + c) == (a + b) + c && a + [] == a
    {
    }

    static lemma Untouched(all: seq<Item>)
      ensures all[..0] == [] && all[0..] == all && Events([]) == [] && Buffers([]) == [] && Flat([]) == []
      ensures Flat(Events(all[..0])) + Flat(all[0..]) == Flat(all)
    {
      assert all[..0] == [];
    }

    static lemma NextPair(all: seq<Item>, done: nat)
      requires done < |all|
      ensures Flat(all[done..]) == [Tag(all[done]), Payload(all[done])] + Flat(all[done + 1..])
      ensures Flat(Events(all[..done + 1])) ==
        Flat(Events(all[..done])) + (if all[done].Event? then [Tag(all[done]), Payload(all[done])] else [])
      ensures Buffers(all[..done + 1]) == Buffers(all[..done]) + (if all[done].Buffer? then [all[done]] else [])
    {
      hide Tag;
      assert all[done..][1..] == all[done + 1..];
      assert all[..done + 1] == all[..done] + [all[done]];
      EventsSnoc(all[..done], all[done]);
      var kept, i := Events(all[..done]), all[done];
      if i.Event? {
        FlatSnoc(kept, i);
        assert Flat(kept) + [Tag(i)] + [Payload(i)] == Flat(kept) + [Tag(i), Payload(i)];
      } else {
        assert kept + [] == kept && Flat(kept) + [] == Flat(kept);
      }
    }

    static lemma Walked(kept: seq<Node>, tag: Node, payload: Node, rest: seq<Node>)
      ensures var nodes, w := kept + ([tag, payload] + rest), |kept|;
        && nodes[w] == tag && nodes[w + 1] == payload
        && nodes[..w] + nodes[w + 1..] == kept + ([payload] + rest)
        && (kept + ([payload] + rest))[w] == payload
        && (kept + ([payload] + rest))[..w] + (kept + ([payload] + rest))[w + 1..] == kept + rest
    {
    }

    static lemma AllWalked(all: seq<Item>, done: nat)
      requires done <= |all| && |Flat(Events(all[..done])) + Flat(all[done..])| <= |Flat(Events(all[..done]))|
      ensures done == |all| && all[..done] == all && Flat(Events(all[..done])) + Flat(all[done..]) == Flat(Events(all))
    {
      FlatLength(all[done..]);
      assert done == |all| && all[done..] == [] && all[..|all|] == all;
      assert Flat(all[done..]) == [];
      assert Flat(Events(all)) + [] == Flat(Events(all));
    }
  }
}
