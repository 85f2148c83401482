/** The tag panel of the journal page: how often each tag name occurs over
    the shown entries, one badge per name in order of first occurrence. */
module Timeline {
  import opened ClientTypes

  /** Every link's tag name, entry by entry, in visiting order. */
  function AllNames(entries: seq<ClientEntry>): seq<string>
  {
    if |entries| == 0 then []
    else AllNames(entries[..|entries| - 1]) + TagNamesOf(entries[|entries| - 1])
  }

  /** The number of links over all entries. */
  function TotalLinks(entries: seq<ClientEntry>): nat
  {
    if |entries| == 0 then 0
    else TotalLinks(entries[..|entries| - 1]) + |entries[|entries| - 1].entryTags|
  }

  /** How often `n` occurs in `s`. */
  function Count(s: seq<string>, n: string): nat
  {
    if |s| == 0 then 0
    else Count(s[..|s| - 1], n) + (if s[|s| - 1] == n then 1 else 0)
  }

  /** No name occurs twice. This is the identity-key case of
      `Base.DistinctKeys`, kept as a plain quantifier because the counting
      loop's invariant unfolds it at every step. */
  ghost predicate Distinct(s: seq<string>)
  {
    forall i, j :: 0 <= i < j < |s| ==> s[i] != s[j]
  }

  /** The distinct names of `s` in order of first occurrence. */
  function Dedup(s: seq<string>): (r: seq<string>)
    ensures forall n :: n in r <==> n in s
    ensures Distinct(r)
  {
    if |s| == 0 then []
    else
      var d := Dedup(s[..|s| - 1]);
      if s[|s| - 1] in s[..|s| - 1] then d else d + [s[|s| - 1]]
  }

  /** What the counter holds after visiting `seen`: the names in insertion
      order, and for each name seen its number of occurrences. */
  ghost predicate Tally(seen: seq<string>, keys: seq<string>, counts: map<string, nat>)
  {
    && keys == Dedup(seen)
    && (forall n :: n in counts <==> n in seen)
    && (forall n :: n in counts ==> counts[n] == Count(seen, n))
  }

  lemma TallyStep(seen: seq<string>, keys: seq<string>, counts: map<string, nat>, name: string,
                  keys': seq<string>, counts': map<string, nat>)
    requires Tally(seen, keys, counts)
    requires keys' == if name in counts then keys else keys + [name]
    requires counts' == counts[name := (if name in counts then counts[name] else 0) + 1]
    ensures Tally(seen + [name], keys', counts')
  {
    var s := seen + [name];
    assert s[..|s| - 1] == seen;
    forall n ensures Count(s, n) == Count(seen, n) + (if n == name then 1 else 0) {
    }
    if name !in seen {
      CountAbsent(seen, name);
    }
  }

  lemma {:induction false} CountAbsent(s: seq<string>, n: string)
    requires n !in s
    ensures Count(s, n) == 0
  {
    if |s| > 0 {
      CountAbsent(s[..|s| - 1], n);
    }
  }

  lemma {:induction false} AllNamesPrefix(entries: seq<ClientEntry>, i: nat)
    requires i < |entries|
    ensures AllNames(entries[..i + 1]) == AllNames(entries[..i]) + TagNamesOf(entries[i])
  {
    assert entries[..i + 1][..i] == entries[..i];
  }

  /** The counter of the tag panel, `tags.set(name, (tags.get(name) || 0) + 1)`
      for every link of every entry. `keys` is the map's insertion order.
      Each name that occurs maps to the number of links carrying it, and no
      other name is in the map. */
  method CountTags(entries: seq<ClientEntry>) returns (keys: seq<string>, counts: map<string, nat>)
    ensures keys == Dedup(AllNames(entries))
    ensures forall n :: n in counts <==> n in AllNames(entries)
    ensures forall n :: n in counts ==> counts[n] == Count(AllNames(entries), n)
  {
    keys := [];
    counts := map[];
    var i := 0;
    while i < |entries|
      invariant 0 <= i <= |entries|
      invariant Tally(AllNames(entries[..i]), keys, counts)
    {
      keys, counts := CountLinks(entries[i], keys, counts, AllNames(entries[..i]));
      AllNamesPrefix(entries, i);
      i := i + 1;
    }
    assert entries[..i] == entries;
  }

  /** The inner loop: one entry's links added to the counter. */
  method CountLinks(entry: ClientEntry, keys0: seq<string>, counts0: map<string, nat>, ghost before: seq<string>)
    returns (keys: seq<string>, counts: map<string, nat>)
    requires Tally(before, keys0, counts0)
    ensures Tally(before + TagNamesOf(entry), keys, counts)
  {
    var links := entry.entryTags;
    ghost var names := TagNamesOf(entry);
    keys, counts := keys0, counts0;
    var j := 0;
    assert before + names[..0] == before;
    while j < |links|
      invariant 0 <= j <= |links|
      invariant Tally(before + names[..j], keys, counts)
    {
      keys, counts := Bump(links[j].tag.name, keys, counts, before + names[..j]);
      assert (before + names[..j]) + [links[j].tag.name] == before + names[..j + 1];
      j := j + 1;
    }
    assert names[..j] == names;
  }

  /** The callback for one link: read the count (a missing name reads as
      0), store it plus one; a new name joins the end of the key order. */
  method Bump(name: string, keys0: seq<string>, counts0: map<string, nat>, ghost seen: seq<string>)
    returns (keys: seq<string>, counts: map<string, nat>)
    requires Tally(seen, keys0, counts0)
    ensures Tally(seen + [name], keys, counts)
  {
    var count := if name in counts0 then counts0[name] else 0;
    keys := if name in counts0 then keys0 else keys0 + [name];
    counts := counts0[name := count + 1];
    TallyStep(seen, keys0, counts0, name, keys, counts);
  }

  /** No entries, no badges. */
  lemma NoEntriesNoTags()
    ensures Dedup(AllNames([])) == []
  {
  }

  // ---------------------------------------------------------------------
  // The counts add up to the number of links.
  // ---------------------------------------------------------------------

  /** The sum of the counts in `s` of the names in `keys`. */
  function SumCounts(keys: seq<string>, s: seq<string>): nat
  {
    if |keys| == 0 then 0
    else SumCounts(keys[..|keys| - 1], s) + Count(s, keys[|keys| - 1])
  }

  lemma {:induction false} SumCountsAppend(keys: seq<string>, s: seq<string>, x: string)
    ensures SumCounts(keys, s + [x]) == SumCounts(keys, s) + Count(keys, x)
  {
    var t := s + [x];
    assert t[..|t| - 1] == s;
    if |keys| > 0 {
      SumCountsAppend(keys[..|keys| - 1], s, x);
    }
  }

  lemma {:induction false} CountDistinct(d: seq<string>, x: string)
    requires Distinct(d)
    ensures Count(d, x) == if x in d then 1 else 0
  {
    if |d| > 0 {
      var p := d[..|d| - 1];
      assert Distinct(p);
      CountDistinct(p, x);
      if d[|d| - 1] == x {
        assert x !in p;
      }
    }
  }

  /** Summed over the distinct names, the counts give the length. */
  lemma {:induction false} DedupCountsSum(s: seq<string>)
    ensures SumCounts(Dedup(s), s) == |s|
  {
    if |s| > 0 {
      var p := s[..|s| - 1];
      var x := s[|s| - 1];
      assert s == p + [x];
      DedupCountsSum(p);
      var d := Dedup(p);
      SumCountsAppend(d, p, x);
      CountDistinct(d, x);
      if x !in p {
        var d' := d + [x];
        assert d'[..|d'| - 1] == d;
        CountAbsent(p, x);
      }
    }
  }

  lemma {:induction false} AllNamesLength(entries: seq<ClientEntry>)
    ensures |AllNames(entries)| == TotalLinks(entries)
  {
    if |entries| > 0 {
      AllNamesLength(entries[..|entries| - 1]);
    }
  }

  /** The badge counts add up to the number of links over all entries. */
  lemma CountsAddUp(entries: seq<ClientEntry>)
    ensures SumCounts(Dedup(AllNames(entries)), AllNames(entries)) == TotalLinks(entries)
  {
    DedupCountsSum(AllNames(entries));
    AllNamesLength(entries);
  }

  /** The badges in order, each with its count; clicking badge `k` hands
      exactly its name to `onTagSelect`. */
  function BadgeClicked(keys: seq<string>, k: nat): (name: string)
    requires k < |keys|
    ensures name in keys
  {
    keys[k]
  }

  /** A clicked badge names a tag that some shown entry carries. */
  lemma BadgeNamesShownTag(entries: seq<ClientEntry>, k: nat)
    requires k < |Dedup(AllNames(entries))|
    ensures BadgeClicked(Dedup(AllNames(entries)), k) in AllNames(entries)
    ensures Count(AllNames(entries), BadgeClicked(Dedup(AllNames(entries)), k)) >= 1
  {
    var s := AllNames(entries);
    var d := Dedup(s);
    assert d[k] in d;
    CountPositive(s, d[k]);
  }

  lemma {:induction false} CountPositive(s: seq<string>, n: string)
    requires n in s
    ensures Count(s, n) >= 1
  {
    var p := s[..|s| - 1];
    if s[|s| - 1] != n {
      assert n in p by {
        var k :| 0 <= k < |s| && s[k] == n;
        assert p[k] == n;
      }
      CountPositive(p, n);
    }
  }
}
