/** The ready list and the waiter lists as they are: linked through one general_tag per thread.

    The step system says "append", "push" and "pop" of sequences of threads. Here the same is
    done to linked lists that share one population of nodes, and whatever step is taken, the
    lists show the sequences again. That a tag is in no list when it is put into one is what the
    invariant of the step system says. */
module ThreadLists {
  import opened Common
  import opened IntrusiveList
  import opened KernelState
  import opened KernelSystem
  import opened KernelInvariant
  import opened KernelSafety
  import opened ListMoves

  /** The parts of the lists' validity; naming them keeps a part folded where it is not used. */
  datatype Part = Population | Chains

  class Lists {
    var lists: map<ListId, List>
    var tags: map<Tid, Elem>
    /** elem2entry, which the source does by address arithmetic. */
    var entry: map<Elem, Tid>
    ghost var contents: map<ListId, seq<Tid>>

    /** The lists, their nodes and all tags. */
    ghost var repr: set<object>

    /** The nodes of a list are the tags of the threads in tids, in that order. */
    ghost predicate Shows(list: List, tids: seq<Tid>)
      reads `tags, list, list.chain
    {
      && list.Valid() && |list.chain| == |tids| + 2
      && forall k :: 0 <= k < |tids| ==> tids[k] in tags && list.chain[k + 1] == tags[tids[k]]
    }

    ghost predicate TagsOk()
      reads `lists, `tags, `entry
    {
      && (forall t :: t in tags ==> tags[t] in entry && entry[tags[t]] == t)
      && (forall t, i :: t in tags && i in lists ==> tags[t] != lists[i].head && tags[t] != lists[i].tail)
    }

    /** Which list a node was last put into. */
    ghost var home: map<Elem, ListId>

    ghost predicate Within(list: List)
      reads `repr, list
    {
      list in repr && forall x :: x in list.chain ==> x in repr
    }

    ghost predicate Homes(list: List, i: ListId)
      reads `home, list
    {
      forall x :: x in list.chain ==> x in home && home[x] == i
    }

    ghost predicate Holds(p: Part)
      reads this, repr
    {
      match p
      case Population =>
        TagsOk() && forall t :: t in tags ==> tags[t] in repr
      case Chains =>
        forall i :: i in lists && i in contents ==>
          lists[i] in repr && Within(lists[i]) && Elsewhere(lists[i], i, contents[i])
    }

    ghost predicate Valid()
      reads this, repr
    {
      lists.Keys == contents.Keys && this !in repr && forall p: Part :: Holds(p)
    }

    /** thread_init: an empty ready list, and main, which is in no list. */
    constructor ()
      ensures Valid() && Mirrors(BOOT) && fresh(repr)
    {
      lists, contents, tags, entry, home, repr := map[], map[], map[], map[], map[], {};
      new;
      Seal();
      AddList(ReadyList);
      AddTag(MAIN);
      BootMirrors();
    }

    lemma BootMirrors()
      requires lists.Keys == contents.Keys == {ReadyList} && contents[ReadyList] == [] && MAIN in tags
      ensures Mirrors(BOOT)
    {
      BootLists();
    }

    /** Nothing is listed at boot, and main is the only thread. */
    lemma BootLists()
      ensures forall i :: Listed(BOOT, i) == []
      ensures forall t: Tid :: Exists(BOOT, t) ==> t == MAIN
    {
    }

    /** Every list and every node there was is still the same one. */
    twostate predicate SameLists()
      reads `lists
    {
      forall i :: i in old(lists) ==> i in lists && lists[i] == old(lists)[i]
    }

    twostate predicate SameTags()
      reads `tags
    {
      forall t :: t in old(tags) ==> t in tags && tags[t] == old(tags)[t]
    }

    /** lock_init: an empty waiter list. */
    method AddList(i: ListId)
      requires Valid() && i !in lists
      modifies `lists, `contents, `home, `repr
      ensures Valid() && lists.Keys == old(lists).Keys + {i} && contents == old(contents)[i := []]
      ensures SameLists()
      ensures tags == old(tags) && fresh(repr - old(repr))
    {
      var list := NewList(i);
      Adopt(i, list);
    }

    method Adopt(i: ListId, list: List)
      requires Valid() && i !in lists && Elsewhere(list, i, [])
      requires forall t :: t in tags ==> tags[t] != list.head && tags[t] != list.tail
      modifies `lists, `contents
      ensures Valid() && lists.Keys == old(lists).Keys + {i} && contents == old(contents)[i := []]
      ensures SameLists()
    {
      assert Holds(Population) && Holds(Chains);
      lists := lists[i := list];
      contents := contents[i := []];
      ListsKept({i});
      Seal();
    }

    /** Lists that are not in `but` and that nothing has been done to, but perhaps for other
        entries of the records, are as they were. */
    twostate lemma ListsKept(but: set<ListId>)
      requires old(repr) <= repr && SameTags()
      requires forall j :: j in old(lists) && j !in but ==>
        j in lists && lists[j] == old(lists)[j] && j in old(contents) && old(Elsewhere(lists[j], j, contents[j]))
      requires forall j :: j in old(lists) && j !in but ==> unchanged(lists[j])
      requires forall j, x :: j in old(lists) && j !in but && x in old(lists[j].chain) ==>
        x.next == old(x.next) && x.prev == old(x.prev)
      requires forall j, x :: j in old(lists) && j !in but && x in old(lists[j].chain) ==>
        x in old(home) && x in home && home[x] == old(home)[x]
      ensures forall j :: j in old(lists) && j !in but ==> Elsewhere(lists[j], j, old(contents)[j])
    {
      forall j | j in old(lists) && j !in but ensures Elsewhere(lists[j], j, old(contents)[j]) {
        assert old(Within(lists[j])) && old(Homes(lists[j], j)) && old(Shows(lists[j], contents[j]));
      }
    }

    /** A list of its own. */
    method NewList(i: ListId) returns (list: List)
      requires Valid() && i !in lists
      modifies `home, `repr
      ensures Valid() && Elsewhere(list, i, []) && fresh(list) && fresh(repr - old(repr))
      ensures forall j :: j in lists ==> lists[j] != list
      ensures forall t :: t in tags ==> tags[t] != list.head && tags[t] != list.tail
    {
      assert Holds(Population) && Holds(Chains);
      list := new List();
      repr := repr + {list, list.head, list.tail};
      home := home[list.head := i][list.tail := i];
      assert list.chain == [list.head, list.tail];
      forall j | j in lists ensures Elsewhere(lists[j], j, contents[j]) {
        assert old(Elsewhere(lists[j], j, contents[j]));
      }
    }

    /** A thread that is in no list has its tag in none. */
    lemma TagOut(t: Tid, i: ListId)
      requires Valid() && t in tags && i in lists && t !in contents[i]
      ensures tags[t] !in lists[i].chain
    {
      assert Holds(Population) && Holds(Chains);
      assert Shows(lists[i], contents[i]);
      var chain := lists[i].chain;
      forall k | 0 <= k < |chain| ensures chain[k] != tags[t] {
        if 1 <= k < |chain| - 1 {
          assert contents[i][k - 1] in contents[i] && chain[k - 1 + 1] == tags[contents[i][k - 1]];
        }
      }
    }

    /** list_append, or for front list_push, of a node that is in no list. */
    method InsertNode(i: ListId, t: Tid, front: bool, ghost tids: seq<Tid>)
      requires i in lists && Shows(lists[i], tids) && t in tags && tags[t] !in lists[i].chain
      modifies lists[i], lists[i].chain, tags[t]
      ensures Shows(lists[i], if front then [t] + tids else tids + [t])
      ensures forall x :: x in lists[i].chain ==> x in old(lists[i].chain) || x == tags[t]
    {
      var list := lists[i];
      assert list.Link(0) in list.chain && list.Link(1) in list.chain;
      assert list.Link(|list.chain| - 1) in list.chain && list.Link(|list.chain| - 2) in list.chain;
      if front {
        list.Push(tags[t]);
      } else {
        list.Append(tags[t]);
      }
    }

    /** What holds of a list that is not being written. */
    ghost predicate Elsewhere(list: List, j: ListId, tids: seq<Tid>)
      reads `tags, `repr, `home, list, list.chain
    {
      Within(list) && Homes(list, j) && Shows(list, tids)
    }

    /** Two lists share nothing. */
    lemma NothingShared(i: ListId, j: ListId)
      requires Valid() && i in lists && j in lists && i != j
      ensures Elsewhere(lists[j], j, contents[j]) && Apart(lists[j], lists[i])
    {
      assert Holds(Population) && Holds(Chains);
      assert Homes(lists[i], i) && Homes(lists[j], j);
      assert Shows(lists[i], contents[i]) && lists[i].chain[0] in lists[i].chain;
    }

    /** Lists whose links have not been written are as they were. */
    twostate lemma AllElsewhere(i: ListId)
      requires lists == old(lists) && tags == old(tags) && repr == old(repr) && home == old(home)
      requires forall j :: j in lists && j != i ==> j in old(contents) && old(Elsewhere(lists[j], j, contents[j]))
      requires forall j :: j in lists && j != i ==> lists[j].chain == old(lists[j].chain)
      requires forall j, x :: j in lists && j != i && x in lists[j].chain ==>
        x.next == old(x.next) && x.prev == old(x.prev)
      ensures forall j :: j in lists && j != i ==> Elsewhere(lists[j], j, old(contents[j]))
    {
    }

    /** list_append, or for front list_push, of the node of a thread that is in no list. */
    method Link(i: ListId, t: Tid, front: bool)
      requires Valid() && i in lists && t in tags && forall j :: j in lists ==> t !in contents[j]
      modifies lists[i], lists[i].chain, tags[t]
      ensures Shows(lists[i], if front then [t] + contents[i] else contents[i] + [t])
      ensures forall x :: x in lists[i].chain ==> x in old(lists[i].chain) || x == tags[t]
      ensures forall j :: j in lists && j != i ==> Elsewhere(lists[j], j, contents[j]) && tags[t] !in lists[j].chain
    {
      assert Holds(Population) && Holds(Chains);
      forall j | j in lists ensures tags[t] !in lists[j].chain {
        TagOut(t, j);
      }
      forall j | j in lists && j != i ensures Elsewhere(lists[j], j, contents[j]) && Apart(lists[j], lists[i]) {
        NothingShared(i, j);
      }
      InsertNode(i, t, front, contents[i]);
      AllElsewhere(i);
    }

    /** list_pop of a list that is not empty, and the thread the node belongs to. */
    method PopNode(i: ListId, ghost tids: seq<Tid>) returns (t: Tid)
      requires i in lists && Shows(lists[i], tids) && tids != [] && TagsOk()
      modifies lists[i], lists[i].chain
      ensures Shows(lists[i], tids[1..]) && t == tids[0]
      ensures forall x {:trigger x in lists[i].chain} :: x in lists[i].chain ==> x in old(lists[i].chain)
    {
      var list := lists[i];
      assert list.Link(0) in list.chain && list.Link(1) in list.chain && list.Link(2) in list.chain;
      assert list.chain[0 + 1] == tags[tids[0]];
      var elem := list.Pop();
      t := entry[elem];
      forall k | 1 <= k < |tids| ensures list.chain[k] == tags[tids[k]] {
        assert old(lists[i].chain)[k + 1] == tags[tids[k]];
      }
    }

    /** Brings the record up to date. */
    ghost method Record(i: ListId, tids: seq<Tid>, more: set<Elem>)
      requires TagsOk() && lists.Keys == contents.Keys && i in lists && this !in repr
      requires forall t :: t in tags ==> tags[t] in repr
      requires lists[i] in repr && Within(lists[i]) && Shows(lists[i], tids)
      requires forall x :: x in lists[i].chain ==> x in more || (x in home && home[x] == i)
      requires forall j :: j in lists && j != i ==> Elsewhere(lists[j], j, contents[j]) && forall x :: x in more ==>
        x !in lists[j].chain
      modifies `contents, `home
      ensures Valid() && contents == old(contents)[i := tids]
    {
      SetHome(i, tids, more);
      contents := contents[i := tids];
      Seal();
    }

    ghost method SetHome(i: ListId, tids: seq<Tid>, more: set<Elem>)
      requires i in lists && lists.Keys == contents.Keys && Within(lists[i]) && Shows(lists[i], tids)
      requires forall x :: x in lists[i].chain ==> x in more || (x in home && home[x] == i)
      requires forall j :: j in lists && j != i ==> Elsewhere(lists[j], j, contents[j]) && forall x :: x in more ==>
        x !in lists[j].chain
      modifies `home
      ensures Elsewhere(lists[i], i, tids)
      ensures forall j :: j in lists && j != i ==> Elsewhere(lists[j], j, contents[j])
    {
      home := home + map x | x in more :: i;
      forall j | j in lists && j != i ensures Elsewhere(lists[j], j, contents[j]) {
        assert old(Homes(lists[j], j)) && old(Shows(lists[j], contents[j])) && old(Within(lists[j]));
      }
    }

    lemma Seal()
      requires TagsOk() && lists.Keys == contents.Keys && this !in repr
      requires forall t :: t in tags ==> tags[t] in repr
      requires forall j :: j in lists ==> Elsewhere(lists[j], j, contents[j])
      ensures Valid()
    {
      assert Holds(Population) && Holds(Chains);
    }

    /** list_append, or for front list_push, of a thread that is in no list. */
    method Insert(i: ListId, t: Tid, front: bool)
      requires Valid() && i in lists && t in tags && forall j :: j in lists ==> t !in contents[j]
      modifies `contents, `home, lists[i], lists[i].chain, tags[t]
      ensures Valid()
      ensures contents == old(contents)[i := if front then [t] + old(contents)[i] else old(contents)[i] + [t]]
    {
      assert Holds(Population) && Holds(Chains);
      Link(i, t, front);
      Record(i, if front then [t] + contents[i] else contents[i] + [t], {tags[t]});
    }

    /** list_pop of a list that is not empty, and the thread the node belongs to. */
    method Pop(i: ListId) returns (t: Tid)
      requires Valid() && i in lists && contents[i] != []
      modifies `contents, `home, lists[i], lists[i].chain
      ensures Valid() && t == old(contents)[i][0] && contents == old(contents)[i := old(contents)[i][1..]]
    {
      assert Holds(Population) && Holds(Chains);
      forall j | j in lists && j != i
        ensures Elsewhere(lists[j], j, contents[j]) && Apart(lists[j], lists[i])
      {
        NothingShared(i, j);
      }
      assert Within(lists[i]) && Homes(lists[i], i) && Shows(lists[i], contents[i]);
      t := PopNode(i, contents[i]);
      AllElsewhere(i);
      Record(i, contents[i][1..], {});
    }

    method Make(m: ListMove)
      requires Valid() && m.list in lists
      requires m.Into? ==> m.t in tags && forall i :: i in lists ==> m.t !in contents[i]
      requires m.OutOf? ==> contents[m.list] != []
      modifies `contents, `home, lists[m.list], lists[m.list].chain, if m.Into? then {tags[m.t]} else {}
      ensures Valid() && contents == old(contents)[m.list := Made(m, m.list, old(contents)[m.list])]
    {
      assert Holds(Population) && Holds(Chains);
      match m
      case Into(list, t, front) => Insert(list, t, front);
      case OutOf(list) => var t := Pop(list);
    }

    /** The node in a new control block. */
    method AddTag(t: Tid)
      requires Valid() && t !in tags
      modifies `tags, `entry, `repr
      ensures Valid() && tags.Keys == old(tags).Keys + {t} && fresh(repr - old(repr)) && SameTags()
    {
      assert Holds(Population) && Holds(Chains);
      var tag := new Elem();
      tags, entry := tags[t := tag], entry[tag := t];
      repr := repr + {tag};
      ListsKept({});
      Seal();
    }

    /** The lists hold what the state says, and every thread has a tag. */
    ghost predicate Mirrors(s: State)
      reads this
    {
      && ReadyList in lists && lists.Keys == contents.Keys
      && (forall i :: i in lists ==> contents[i] == Listed(s, i))
      && (forall i :: i !in lists ==> Listed(s, i) == [])
      && (forall t: Tid :: Exists(s, t) ==> t in tags)
    }

    /** The moves of a step, on the linked lists, with one node per thread: from lists that show
        those of s to the same lists, with the same nodes, that show those of s'. */
    method Follow(s: State, a: Action, ghost s': State)
      requires Valid() && Mirrors(s) && Carries(s, a, s')
      modifies this, repr
      ensures Valid() && Mirrors(s') && fresh(repr - old(repr)) && SameLists() && SameTags()
    {
      Need(s, a);
      Take(s, a, Moves(s, a), s');
    }

    /** The lists of locks not seen before, and the node of a thread about to start. */
    method Need(s: State, a: Action)
      requires Valid() && Mirrors(s)
      modifies `lists, `tags, `entry, `contents, `home, `repr
      ensures Valid() && Mirrors(s) && fresh(repr - old(repr)) && SameLists() && SameTags()
      ensures forall k :: 0 <= k < |Moves(s, a)| ==> Moves(s, a)[k].list in lists
      ensures forall t: Tid :: Around(s, a, t) ==> t in tags
    {
      NeedLists(s, Moves(s, a));
      NeedTag(s, a);
    }

    /** The lists of locks not seen before. */
    method NeedLists(ghost s: State, ms: seq<ListMove>)
      requires Valid() && Mirrors(s)
      modifies `lists, `contents, `home, `repr
      ensures Valid() && Mirrors(s) && fresh(repr - old(repr)) && SameLists()
      ensures forall k :: 0 <= k < |ms| ==> ms[k].list in lists
      decreases |ms|
    {
      if ms != [] {
        NeedList(s, ms[0].list);
        NeedLists(s, ms[1..]);
        assert forall k :: 1 <= k < |ms| ==> ms[k] == ms[1..][k - 1];
      }
    }

    method NeedTag(ghost s: State, a: Action)
      requires Valid() && Mirrors(s)
      modifies `repr, `tags, `entry
      ensures Valid() && Mirrors(s) && fresh(repr - old(repr)) && SameTags()
      ensures a.CallStart? ==> a.t in tags
    {
      if a.CallStart? && a.t !in tags {
        AddTag(a.t);
      }
    }

    method NeedList(ghost s: State, i: ListId)
      requires Valid() && Mirrors(s)
      modifies `lists, `contents, `home, `repr
      ensures Valid() && Mirrors(s) && fresh(repr - old(repr)) && SameLists()
      ensures lists.Keys == old(lists).Keys + {i}
    {
      if i !in lists {
        AddList(i);
      }
    }

    /** From the lists of s to those of s'. */
    method Take(ghost s: State, ghost a: Action, ms: seq<ListMove>, ghost s': State)
      requires Valid() && Mirrors(s) && ms == Moves(s, a) && Carries(s, a, s')
      requires forall t: Tid :: Around(s, a, t) ==> t in tags
      requires forall k :: 0 <= k < |ms| ==> ms[k].list in lists
      modifies `contents, `home, repr
      ensures Valid() && Mirrors(s')
    {
      assert ms[..0] == [] && ms[..|ms|] == ms;
      forall i | i !in lists ensures Listed(s', i) == [] {
        MadeElsewhere(ms, i, Listed(s, i));
      }
      MakeAll(s, ms);
    }

    /** Along every run the same linked lists, with the same nodes, show the lists of the state. */
    method FollowRun(s0: State, actions: seq<Action>)
      requires Valid() && Mirrors(s0) && Inv(s0, true) && Obeys(s0, actions)
      modifies this, repr
      ensures Run(s0, actions).Next? && Valid() && Mirrors(Run(s0, actions).s) && fresh(repr - old(repr))
      ensures SameLists() && SameTags()
    {
      RunKeeps(s0, actions);
      RunCarries(s0, actions);
      FollowAll(s0, actions);
    }

    method FollowAll(s0: State, actions: seq<Action>)
      requires Valid() && Mirrors(s0) && AllCarry(s0, actions)
      modifies this, repr
      ensures Run(s0, actions).Next? && Valid() && Mirrors(Run(s0, actions).s) && fresh(repr - old(repr))
      ensures SameLists() && SameTags()
      decreases |actions|
    {
      if actions != [] {
        Follow(s0, actions[0], Step(s0, actions[0]).s);
        FollowAll(Step(s0, actions[0]).s, actions[1..]);
      }
    }

    /** The lists after the first k moves. */
    ghost predicate Reached(s: State, ms: seq<ListMove>, k: nat)
      requires k <= |ms|
      reads this
    {
      lists.Keys == contents.Keys && forall i :: i in lists ==> contents[i] == MadeAll(ms[..k], i, Listed(s, i))
    }

    /** One move. */
    method MakeNext(ghost s: State, m: ListMove, ghost ms: seq<ListMove>, ghost k: nat)
      requires Valid() && k < |ms| && m == ms[k] && m.list in lists && Reached(s, ms, k)
      requires Possible(m, s, ms[..k]) && (m.Into? ==> m.t in tags)
      modifies `contents, `home, repr
      ensures Valid() && Reached(s, ms, k + 1)
    {
      assert Holds(Population) && Holds(Chains);
      assert Within(lists[m.list]);
      Make(m);
      forall i | i in lists ensures contents[i] == MadeAll(ms[..k + 1], i, Listed(s, i)) {
        MadeNext(ms, k, i, Listed(s, i));
      }
    }

    /** The moves of a step, one after the other. */
    method MakeAll(ghost s: State, ms: seq<ListMove>)
      requires Valid() && Reached(s, ms, 0)
      requires forall k :: 0 <= k < |ms| ==> Possible(ms[k], s, ms[..k]) && (ms[k].Into? ==> ms[k].t in tags)
      requires forall k :: 0 <= k < |ms| ==> ms[k].list in lists
      modifies `contents, `home, repr
      ensures Valid() && Reached(s, ms, |ms|)
    {
      var k := 0;
      while k < |ms|
        invariant k <= |ms| && Valid() && Reached(s, ms, k)
      {
        MakeNext(s, ms[k], ms, k);
        k := k + 1;
      }
    }
  }
}
