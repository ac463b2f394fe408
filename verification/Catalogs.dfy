/** The model catalog: which concrete models serve which tier. */
module Catalogs {
  import opened Sorting

  const TINY := 0
  const STANDARD := 2
  const MAX_TIER := 4

  datatype Entry = Entry(
    tier: int, engine: string, model: string, account: string, inputCost: real, outputCost: real,
    contextWindow: int, supportsImages: bool, subscriptionIncluded: bool, priority: int, disabled: bool)

  function ID(e: Entry): string {
    e.engine + "/" + e.model + "/" + e.account
  }

  lemma SlashSplits(x: string, y: string, x': string, y': string)
    requires '/' !in x && '/' !in x' && x + "/" + y == x' + "/" + y'
    ensures x == x' && y == y'
  {
    var s, s' := x + "/" + y, x' + "/" + y';
    assert s[|x|] == '/' && s'[|x'|] == '/';
    assert forall i :: 0 <= i < |x| ==> s[i] == x[i] && x[i] in x;
    assert forall i :: 0 <= i < |x'| ==> s'[i] == x'[i] && x'[i] in x';
    assert s[..|x|] == x && s'[..|x'|] == x' && s[|x| + 1..] == y && s'[|x'| + 1..] == y';
  }

  /** Among names without a slash the identity tells engine, model and account apart. */
  lemma IdentitiesTellApart(a: Entry, b: Entry)
    requires '/' !in a.engine && '/' !in a.model && '/' !in b.engine && '/' !in b.model
    ensures ID(a) == ID(b) <==> a.engine == b.engine && a.model == b.model && a.account == b.account
  {
    assert ID(a) == a.engine + "/" + (a.model + "/" + a.account);
    assert ID(b) == b.engine + "/" + (b.model + "/" + b.account);
    if ID(a) == ID(b) {
      SlashSplits(a.engine, a.model + "/" + a.account, b.engine, b.model + "/" + b.account);
      SlashSplits(a.model, a.account, b.model, b.account);
    }
  }

  // Higher priority first, then by identity.
  predicate RanksBefore(a: Entry, b: Entry) {
    a.priority > b.priority || (a.priority == b.priority && StringLe(ID(a), ID(b)))
  }

  ghost predicate NoDuplicates(entries: seq<Entry>) {
    forall i, j :: 0 <= i < j < |entries| ==> entries[i].tier != entries[j].tier || ID(entries[i]) != ID(entries[j])
  }

  function Enabled(entries: seq<Entry>, tier: int): seq<Entry> {
    if entries == [] then []
    else
      var last := entries[|entries| - 1];
      Enabled(entries[..|entries| - 1], tier) + if !last.disabled && last.tier == tier then [last] else []
  }

  function Without(entries: seq<Entry>, id: string): seq<Entry> {
    if entries == [] then []
    else
      var last := entries[|entries| - 1];
      Without(entries[..|entries| - 1], id) + if ID(last) != id then [last] else []
  }

  function TierEntries(entries: seq<Entry>, tier: int): seq<Entry> {
    Sort(Enabled(entries, tier), RanksBefore)
  }

  lemma RanksAreOrdered()
    ensures IsOrder(RanksBefore)
  {
    forall a, b
      ensures RanksBefore(a, b) || RanksBefore(b, a)
    {
      StringsCompare(ID(a), ID(b));
    }
    forall a, b, c | RanksBefore(a, b) && RanksBefore(b, c)
      ensures RanksBefore(a, c)
    {
      if a.priority == b.priority == c.priority {
        StringLeChains(ID(a), ID(b), ID(c));
      }
    }
  }

  // As many of e as the catalog has, if e is enabled in this tier, and otherwise none.
  lemma {:induction false} EnabledCounts(entries: seq<Entry>, tier: int, e: Entry)
    ensures multiset(Enabled(entries, tier))[e] == if !e.disabled && e.tier == tier then multiset(entries)[e] else 0
  {
    if entries != [] {
      var front := entries[..|entries| - 1];
      assert entries == front + [entries[|entries| - 1]];
      EnabledCounts(front, tier, e);
    }
  }

  /** A tier's list: its enabled entries, each as often as in the catalog, best rank first. */
  lemma TierEntriesMeaning(entries: seq<Entry>, tier: int, e: Entry)
    ensures multiset(TierEntries(entries, tier))[e] == if !e.disabled && e.tier == tier then multiset(entries)[e] else 0
    ensures Sorted(TierEntries(entries, tier), RanksBefore)
    ensures var s := TierEntries(entries, tier);
            forall i, j :: 0 <= i < j < |s| ==>
              s[i].priority > s[j].priority || (s[i].priority == s[j].priority && StringLe(ID(s[i]), ID(s[j])))
  {
    EnabledCounts(entries, tier, e);
    RanksAreOrdered();
    SortSorts(Enabled(entries, tier), RanksBefore);
  }

  lemma EnabledMember(entries: seq<Entry>, tier: int, e: Entry)
    ensures e in Enabled(entries, tier) <==> e in entries && !e.disabled && e.tier == tier
  {
    EnabledCounts(entries, tier, e);
    assert e in Enabled(entries, tier) <==> multiset(Enabled(entries, tier))[e] > 0;
    assert e in entries <==> multiset(entries)[e] > 0;
  }

  lemma RanksAreStrict(entries: seq<Entry>, tier: int)
    requires NoDuplicates(entries)
    ensures IsStrictOn(TierEntries(entries, tier), RanksBefore)
  {
    hide RanksBefore, Sort;
    var ranked := TierEntries(entries, tier);
    forall a, b | a in ranked && b in ranked && RanksBefore(a, b) && RanksBefore(b, a)
      ensures a == b
    {
      SortMembers(Enabled(entries, tier), RanksBefore, a);
      SortMembers(Enabled(entries, tier), RanksBefore, b);
      EnabledMember(entries, tier, a);
      EnabledMember(entries, tier, b);
      SameRankSameID(a, b);
      var i :| 0 <= i < |entries| && entries[i] == a;
      var j :| 0 <= j < |entries| && entries[j] == b;
    }
  }

  lemma SameRankSameID(a: Entry, b: Entry)
    requires RanksBefore(a, b) && RanksBefore(b, a)
    ensures ID(a) == ID(b)
  {
    StringsCompare(ID(a), ID(b));
  }

  /** A tier's list does not depend on the order in which the entries were added. */
  lemma TierEntriesIgnoreOrder(a: seq<Entry>, b: seq<Entry>, tier: int)
    requires NoDuplicates(a) && multiset(a) == multiset(b)
    ensures TierEntries(a, tier) == TierEntries(b, tier)
  {
    hide RanksBefore, Sort, IsOrder, Sorted, IsStrictOn;
    var s, t := TierEntries(a, tier), TierEntries(b, tier);
    forall e
      ensures multiset(s)[e] == multiset(t)[e]
    {
      TierEntriesMeaning(a, tier, e);
      TierEntriesMeaning(b, tier, e);
    }
    assert multiset(s) == multiset(t);
    RanksAreOrdered();
    SortSorts(Enabled(a, tier), RanksBefore);
    SortSorts(Enabled(b, tier), RanksBefore);
    RanksAreStrict(a, tier);
    SortedIsUnique(s, t, RanksBefore);
  }

  lemma {:induction false} WithoutMembers(entries: seq<Entry>, id: string, e: Entry)
    ensures e in Without(entries, id) <==> e in entries && ID(e) != id
  {
    if entries != [] {
      var front := entries[..|entries| - 1];
      assert entries == front + [entries[|entries| - 1]];
      WithoutMembers(front, id, e);
    }
  }

  lemma {:induction false} WithoutKeepsDistinct(entries: seq<Entry>, id: string)
    requires NoDuplicates(entries)
    ensures NoDuplicates(Without(entries, id)) && |Without(entries, id)| <= |entries|
  {
    if entries != [] {
      var front, last := entries[..|entries| - 1], entries[|entries| - 1];
      WithoutKeepsDistinct(front, id);
      var kept := Without(front, id);
      forall i | 0 <= i < |kept|
        ensures kept[i].tier != last.tier || ID(kept[i]) != ID(last)
      {
        WithoutMembers(front, id, kept[i]);
        var j :| 0 <= j < |front| && front[j] == kept[i];
        assert entries[j] == kept[i];
      }
    }
  }

  class Catalog {
    var entries: seq<Entry>

    ghost predicate Valid()
      reads this
    {
      NoDuplicates(entries)
    }

    constructor ()
      ensures Valid() && entries == []
    {
      entries := [];
    }

    method Add(e: Entry) returns (added: bool)
      requires Valid()
      modifies this
      ensures Valid()
      ensures added <==> forall old_ :: old_ in old(entries) ==> old_.tier != e.tier || ID(old_) != ID(e)
      ensures entries == if added then old(entries) + [e] else old(entries)
    {
      for i := 0 to |entries|
        invariant forall j :: 0 <= j < i ==> entries[j].tier != e.tier || ID(entries[j]) != ID(e)
      {
        if entries[i].tier == e.tier && ID(entries[i]) == ID(e) {
          return false;
        }
      }
      entries := entries + [e];
      return true;
    }

    method Remove(id: string) returns (n: nat)
      requires Valid()
      modifies this
      ensures Valid()
      ensures entries == Without(old(entries), id) && n == |old(entries)| - |entries|
    {
      n := 0;
      var out: seq<Entry> := [];
      for i := 0 to |entries|
        invariant entries == old(entries)
        invariant out == Without(entries[..i], id) && n == i - |out|
      {
        assert entries[..i + 1][..i] == entries[..i];
        if ID(entries[i]) == id {
          n := n + 1;
        } else {
          out := out + [entries[i]];
        }
      }
      assert entries[..|entries|] == entries;
      WithoutKeepsDistinct(entries, id);
      entries := out;
    }

    method ByTier(tier: int) returns (ranked: seq<Entry>)
      ensures ranked == TierEntries(entries, tier)
    {
      ranked := [];
      for i := 0 to |entries|
        invariant ranked == Enabled(entries[..i], tier)
      {
        assert entries[..i + 1][..i] == entries[..i];
        if !entries[i].disabled && entries[i].tier == tier {
          ranked := ranked + [entries[i]];
        }
      }
      assert entries[..|entries|] == entries;
      ranked := Sort(ranked, RanksBefore);
    }
  }
}
