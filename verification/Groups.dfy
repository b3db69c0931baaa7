/** The replica group: sorting it changes neither its members nor their number. */
module Groups {
  import opened Options
  import opened Quorum
  import opened Collections

  predicate Ascending(s: seq<Id>) {
    forall i, j :: 0 <= i < j < |s| ==> s[i] <= s[j]
  }

  lemma {:induction false} InsertPermutes(x: Id, s: seq<Id>)
    ensures multiset(Insert(x, s)) == multiset(s) + multiset{x}
  {
    if s != [] && x > s[0] {
      InsertPermutes(x, s[1..]);
      assert s == [s[0]] + s[1..];
    }
  }

  lemma {:induction false} InsertElements(x: Id, s: seq<Id>)
    ensures forall y :: y in Insert(x, s) <==> y == x || y in s
  {
    if s != [] && x > s[0] {
      InsertElements(x, s[1..]);
      assert s == [s[0]] + s[1..];
    }
  }

  lemma AscendingCons(x: Id, s: seq<Id>)
    requires Ascending(s) && forall y :: y in s ==> x <= y
    ensures Ascending([x] + s)
  {
    var t := [x] + s;
    forall i, j | 0 <= i < j < |t|
      ensures t[i] <= t[j]
    {
      assert t[j] == s[j - 1] && t[j] in s;
    }
  }

  lemma {:induction false} InsertAscends(x: Id, s: seq<Id>)
    requires Ascending(s)
    ensures Ascending(Insert(x, s))
  {
    if s != [] {
      assert forall y :: y in s ==> s[0] <= y;
      if x > s[0] {
        InsertAscends(x, s[1..]);
        InsertElements(x, s[1..]);
        AscendingCons(s[0], Insert(x, s[1..]));
      } else {
        AscendingCons(x, s);
      }
    }
  }

  /** `Raft::new` orders the group and loses or repeats nobody. */
  lemma {:induction false} SortPermutes(s: seq<Id>)
    ensures multiset(Sort(s)) == multiset(s) && Ascending(Sort(s))
  {
    hide Ascending, Insert;
    if s == [] {
      EmptyAscends();
    } else {
      SortPermutes(s[1..]);
      InsertPermutes(s[0], Sort(s[1..]));
      InsertAscends(s[0], Sort(s[1..]));
      assert s == [s[0]] + s[1..];
    }
  }

  lemma EmptyAscends()
    ensures Ascending([])
  {
  }

  lemma SortedGroup(s: seq<Id>)
    ensures |Sort(s)| == |s|
    ensures forall x :: x in Sort(s) <==> x in s
    ensures NoRepeats(s) ==> NoRepeats(Sort(s))
  {
    SortPermutes(s);
    assert |multiset(s)| == |s| && |multiset(Sort(s))| == |Sort(s)|;
    forall x
      ensures x in Sort(s) <==> x in s
    {
      assert x in Sort(s) <==> x in multiset(Sort(s));
      assert x in s <==> x in multiset(s);
    }
    if NoRepeats(s) {
      forall i, j | 0 <= i < j < |Sort(s)|
        ensures Sort(s)[i] != Sort(s)[j]
      {
        CountOne(s, Sort(s)[i]);
        if Sort(s)[i] == Sort(s)[j] {
          RepeatsCounted(Sort(s), i, j);
        }
      }
    }
  }

  lemma {:induction false} OthersDistinct(group: seq<Id>, me: Id)
    requires NoRepeats(group)
    ensures NoRepeats(Others(group, me))
    ensures forall x :: x in Others(group, me) <==> x in group && x != me
  {
    if group != [] {
      OthersDistinct(group[1..], me);
      assert group == [group[0]] + group[1..];
      assert group[0] !in group[1..];
    }
  }
}
