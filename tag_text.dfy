/** The comma-separated tag text of the entry forms: the card shows an
    entry's tag names joined by ", " and both forms send back
    `tags.split(",").map(t => t.trim()).filter(Boolean)`. */
module TagText {
  import opened Base

  /** `Array.prototype.join(sep)`. */
  function Join(names: seq<string>, sep: string): string
  {
    if |names| == 0 then ""
    else if |names| == 1 then names[0]
    else names[0] + sep + Join(names[1..], sep)
  }

  /** `String.prototype.split(c)` for a one-character separator: there is
      always at least one piece, and no piece holds the separator. */
  function Split(s: string, c: char): (r: seq<string>)
    ensures |r| >= 1
    ensures forall k :: 0 <= k < |r| ==> c !in r[k]
  {
    if |s| == 0 then [""]
    else
      var rest := Split(s[1..], c);
      if s[0] == c then [""] + rest
      else [[s[0]] + rest[0]] + rest[1..]
  }

  predicate AllWhite(w: string)
  {
    forall k :: 0 <= k < |w| ==> IsWhite(w[k])
  }

  /** Where the run of white space that starts at `i` ends. */
  function LeadEnd(s: string, i: nat): (n: nat)
    requires i <= |s|
    ensures i <= n <= |s|
    ensures forall k :: i <= k < n ==> IsWhite(s[k])
    ensures n < |s| ==> !IsWhite(s[n])
    decreases |s| - i
  {
    if i < |s| && IsWhite(s[i]) then LeadEnd(s, i + 1) else i
  }

  /** Where the run of white space that ends at `hi` starts, going no
      further back than `lo`. */
  function TrailStart(s: string, lo: nat, hi: nat): (n: nat)
    requires lo <= hi <= |s|
    ensures lo <= n <= hi
    ensures forall k :: n <= k < hi ==> IsWhite(s[k])
    ensures n > lo ==> !IsWhite(s[n - 1])
    decreases hi - lo
  {
    if lo < hi && IsWhite(s[hi - 1]) then TrailStart(s, lo, hi - 1) else hi
  }

  /** Neither end is white space. */
  predicate Trimmed(s: string)
  {
    |s| == 0 || (!IsWhite(s[0]) && !IsWhite(s[|s| - 1]))
  }

  /** `String.prototype.trim`: the result is the stretch of `s` that starts
      after its leading white space; what lies before and after that
      stretch is white space, and neither of its ends is. */
  function Trim(s: string): (r: string)
    ensures Trimmed(r)
    ensures var lead := LeadEnd(s, 0);
      && lead + |r| <= |s| && r == s[lead..lead + |r|]
      && AllWhite(s[..lead]) && AllWhite(s[lead + |r|..])
  {
    var lead := LeadEnd(s, 0);
    s[lead..TrailStart(s, lead, |s|)]
  }

  /** `tags.split(",").map(t => t.trim()).filter(Boolean)`. */
  function ParseTags(s: string): seq<string>
  {
    Filter(TrimEach(Split(s, ',')), NonEmpty)
  }

  /** `.map(t => t.trim())`. */
  function TrimEach(pieces: seq<string>): (r: seq<string>)
    ensures |r| == |pieces|
    ensures forall k :: 0 <= k < |r| ==> r[k] == Trim(pieces[k]) && Trimmed(r[k])
  {
    seq(|pieces|, k requires 0 <= k < |pieces| => Trim(pieces[k]))
  }

  predicate NonEmpty(s: string)
  {
    s != ""
  }

  /** The tag text of an entry: its names joined by ", ". */
  function TagLine(names: seq<string>): string
  {
    Join(names, ", ")
  }

  // ---------------------------------------------------------------------
  // Trimming.
  // ---------------------------------------------------------------------

  /** A trimmed string is one `trim` leaves alone, and trimming yields one. */
  lemma TrimmedIffFixed(s: string)
    ensures Trimmed(Trim(s))
    ensures Trimmed(s) <==> Trim(s) == s
  {
    if Trimmed(s) && |s| > 0 {
      assert LeadEnd(s, 0) == 0;
      assert TrailStart(s, 0, |s|) == |s|;
      assert s[0..|s|] == s;
    }
  }

  /** Trimming twice is trimming once. */
  lemma TrimIdempotent(s: string)
    ensures Trim(Trim(s)) == Trim(s)
  {
    TrimmedIffFixed(s);
    TrimmedIffFixed(Trim(s));
  }

  /** A trimmed piece holds no character its untrimmed piece lacks. */
  lemma TrimKeepsChars(s: string, c: char)
    requires c !in s
    ensures c !in Trim(s)
  {
    var lead := LeadEnd(s, 0);
    var r := Trim(s);
    assert forall k :: 0 <= k < |r| ==> r[k] == s[lead + k];
  }

  /** One leading blank is dropped by `trim` when the rest is trimmed and
      not empty. */
  lemma TrimLeadingBlank(n: string)
    requires n != "" && Trimmed(n)
    ensures Trim(" " + n) == n
  {
    var s := " " + n;
    assert s[1] == n[0] && s[|s| - 1] == n[|n| - 1];
    assert LeadEnd(s, 1) == 1;
    assert LeadEnd(s, 0) == 1;
    assert TrailStart(s, 1, |s|) == |s|;
    assert s[1..|s|] == n;
  }

  // ---------------------------------------------------------------------
  // The parse.
  // ---------------------------------------------------------------------

  /** Every parsed tag is non-empty, free of commas and trimmed; every
      non-empty trimmed piece of the text is kept in order. */
  lemma ParsedTags(s: string)
    ensures forall k :: 0 <= k < |ParseTags(s)| ==>
      ParseTags(s)[k] != "" && ',' !in ParseTags(s)[k] && Trimmed(ParseTags(s)[k])
  {
    var pieces := Split(s, ',');
    var trimmed := TrimEach(pieces);
    var r := ParseTags(s);
    forall k | 0 <= k < |r| ensures r[k] != "" && ',' !in r[k] && Trimmed(r[k]) {
      assert r[k] in trimmed;
      var m :| 0 <= m < |trimmed| && trimmed[m] == r[k];
      TrimKeepsChars(pieces[m], ',');
      TrimmedIffFixed(pieces[m]);
    }
  }

  /** An empty field sends no tags. */
  lemma ParseEmpty()
    ensures ParseTags("") == []
  {
    assert Split("", ',') == [""];
    assert Trim("") == "";
    assert TrimEach([""]) == [""];
    FilterNone([""], NonEmpty);
  }

  // ---------------------------------------------------------------------
  // Split after join.
  // ---------------------------------------------------------------------

  lemma {:induction false} SplitNoSeparator(a: string, c: char)
    requires c !in a
    ensures Split(a, c) == [a]
  {
    if |a| > 0 {
      SplitNoSeparator(a[1..], c);
      assert [a[0]] + a[1..] == a;
    }
  }

  lemma {:induction false} SplitAfterPiece(a: string, c: char, rest: string)
    requires c !in a
    ensures Split(a + [c] + rest, c) == [a] + Split(rest, c)
  {
    if |a| == 0 {
      assert a + [c] + rest == [c] + rest;
      assert ([c] + rest)[1..] == rest;
    } else {
      SplitAfterPiece(a[1..], c, rest);
      assert (a + [c] + rest)[1..] == a[1..] + [c] + rest;
      assert [a[0]] + a[1..] == a;
    }
  }

  /** The pieces `split(",")` finds in `pre` followed by a ", "-joined
      line: the first name with `pre` in front, then each later name with
      its leading blank. */
  lemma {:induction false} SplitTagLine(pre: string, names: seq<string>)
    requires |names| >= 1
    requires ',' !in pre
    requires forall k :: 0 <= k < |names| ==> ',' !in names[k]
    ensures Split(pre + TagLine(names), ',') ==
      [pre + names[0]] + seq(|names| - 1, k requires 0 <= k < |names| - 1 => " " + names[k + 1])
    decreases |names|
  {
    if |names| == 1 {
      assert pre + TagLine(names) == pre + names[0];
      SplitNoSeparator(pre + names[0], ',');
    } else {
      var tail := names[1..];
      assert TagLine(names) == names[0] + ", " + TagLine(tail);
      assert pre + TagLine(names) == (pre + names[0]) + [','] + (" " + TagLine(tail));
      SplitAfterPiece(pre + names[0], ',', " " + TagLine(tail));
      SplitTagLine(" ", tail);
      assert " " + TagLine(tail) == " " + TagLine(tail);
    }
  }

  /** The pieces of a tag line: the first name, then each later name with
      its leading blank. */
  lemma TagLinePieces(names: seq<string>)
    requires |names| >= 1
    requires forall k :: 0 <= k < |names| ==> ',' !in names[k]
    ensures Split(TagLine(names), ',') ==
      [names[0]] + seq(|names| - 1, k requires 0 <= k < |names| - 1 => " " + names[k + 1])
  {
    SplitTagLine("", names);
    assert "" + TagLine(names) == TagLine(names);
    assert "" + names[0] == names[0];
  }

  /** Trimming those pieces gives the names back. */
  lemma TrimPieces(names: seq<string>, pieces: seq<string>)
    requires |names| >= 1 && |pieces| == |names|
    requires pieces[0] == names[0]
    requires forall k :: 1 <= k < |names| ==> pieces[k] == " " + names[k]
    requires forall k :: 0 <= k < |names| ==> names[k] != "" && Trimmed(names[k])
    ensures TrimEach(pieces) == names
  {
    forall k | 0 <= k < |names| ensures Trim(pieces[k]) == names[k] {
      if k == 0 {
        TrimmedIffFixed(names[0]);
      } else {
        TrimLeadingBlank(names[k]);
      }
    }
  }

  /** Round trip: names that are non-empty, comma-free and trimmed come back
      unchanged from the card's tag line. */
  lemma ParseTagLine(names: seq<string>)
    requires forall k :: 0 <= k < |names| ==> names[k] != "" && ',' !in names[k] && Trimmed(names[k])
    ensures ParseTags(TagLine(names)) == names
  {
    if |names| > 0 {
      TagLinePieces(names);
      TrimPieces(names, Split(TagLine(names), ','));
      FilterAll(names, NonEmpty);
    }
  }

  /** The round trip needs its conditions: a name holding a comma comes
      back as two tags. */
  lemma CommaSplitsName(a: string, b: string)
    requires a != "" && ',' !in a && Trimmed(a)
    requires b != "" && ',' !in b && Trimmed(b)
    ensures ParseTags(TagLine([a + [','] + b])) == [a, b]
  {
    assert TagLine([a + [','] + b]) == a + [','] + b;
    SplitAfterPiece(a, ',', b);
    SplitNoSeparator(b, ',');
    TrimmedIffFixed(a);
    TrimmedIffFixed(b);
    assert TrimEach([a, b]) == [a, b];
    FilterAll([a, b], NonEmpty);
  }
}
