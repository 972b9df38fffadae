/**
 * Comma-separated keyword lists, as the investment-consulting and
 * investment-plans forms read them from a text input (split at commas,
 * trim each piece, drop the empty ones) and show them back (join with
 * ", ").
 */
module Keywords {
  import opened Text

  /** `.map((k) => k.trim())` */
  function TrimEach(segments: seq<string>): (r: seq<string>)
    ensures |r| == |segments|
    ensures forall i :: 0 <= i < |r| ==> r[i] == Trim(segments[i])
  {
    if segments == [] then [] else [Trim(segments[0])] + TrimEach(segments[1..])
  }

  /** `.filter((k) => k)`: keeps the non-empty strings, in order. */
  function DropEmpty(xs: seq<string>): (r: seq<string>)
    ensures |r| <= |xs|
    ensures forall i :: 0 <= i < |r| ==> r[i] != [] && r[i] in xs
    ensures forall i :: 0 <= i < |xs| && xs[i] != [] ==> xs[i] in r
  {
    if xs == [] then []
    else if xs[0] == [] then DropEmpty(xs[1..])
    else [xs[0]] + DropEmpty(xs[1..])
  }

  /** `xs` occurs in `ys` in the same order, possibly with gaps. */
  predicate IsSubsequence(xs: seq<string>, ys: seq<string>)
    decreases |ys|
  {
    xs == [] || (ys != [] && ((xs[0] == ys[0] && IsSubsequence(xs[1..], ys[1..])) || IsSubsequence(xs, ys[1..])))
  }

  /** A keyword the round trip can carry: non-empty, trimmed, comma-free. */
  predicate WellFormed(k: string) {
    k != [] && IsTrimmed(k) && ',' !in k
  }

  /** `.map((k) => k.trim()).filter((k) => k)` over the comma segments. */
  function Clean(segments: seq<string>): (r: seq<string>)
    ensures |r| <= |segments|
    ensures forall i :: 0 <= i < |r| ==> r[i] != [] && IsTrimmed(r[i])
  {
    DropEmpty(TrimEach(segments))
  }

  /** `input.split(",").map((k) => k.trim()).filter((k) => k)` */
  function Parse(input: string): (r: seq<string>)
    ensures forall i :: 0 <= i < |r| ==> WellFormed(r[i])
    ensures |r| <= Count(input, ',') + 1
  {
    var segments := Split(input, ',');
    CleanKeepsAbsent(segments, ',');
    Clean(segments)
  }

  lemma CleanKeepsAbsent(segments: seq<string>, c: char)
    requires forall i :: 0 <= i < |segments| ==> c !in segments[i]
    ensures forall i :: 0 <= i < |Clean(segments)| ==> c !in Clean(segments)[i]
  {
    var trimmed := TrimEach(segments);
    forall i | 0 <= i < |trimmed| ensures c !in trimmed[i] {
      TrimKeepsAbsent(segments[i], c);
    }
  }

  /** `keywords.join(", ")` */
  function Display(keywords: seq<string>): (r: string)
    ensures keywords == [] ==> r == []
    ensures keywords != [] ==> |r| == TotalLength(keywords) + 2 * (|keywords| - 1)
    ensures keywords != [] ==> r[..|keywords[0]|] == keywords[0]
  {
    assert |", "| == 2;
    Join(keywords, ", ")
  }

  /** `.filter` keeps the left-to-right order of what it keeps. */
  lemma {:induction false} DropEmptyIsSubsequence(xs: seq<string>)
    ensures IsSubsequence(DropEmpty(xs), xs)
  {
    if xs != [] {
      DropEmptyIsSubsequence(xs[1..]);
      if xs[0] != [] {
        assert DropEmpty(xs) == [xs[0]] + DropEmpty(xs[1..]);
        assert DropEmpty(xs)[1..] == DropEmpty(xs[1..]);
      }
    }
  }

  /** The parsed keywords are the trimmed comma segments of the input that
      are not empty, in the order the segments appear; every such segment
      is kept. */
  lemma ParseKeepsSegmentOrder(input: string)
    ensures IsSubsequence(Parse(input), TrimEach(Split(input, ',')))
    ensures forall i :: 0 <= i < |Split(input, ',')| && Trim(Split(input, ',')[i]) != [] ==>
      Trim(Split(input, ',')[i]) in Parse(input)
  {
    DropEmptyIsSubsequence(TrimEach(Split(input, ',')));
  }

  lemma {:induction false} DropEmptyAppend(xs: seq<string>, ys: seq<string>)
    ensures DropEmpty(xs + ys) == DropEmpty(xs) + DropEmpty(ys)
  {
    if xs == [] {
      assert xs + ys == ys;
    } else {
      assert (xs + ys)[1..] == xs[1..] + ys;
      DropEmptyAppend(xs[1..], ys);
    }
  }

  lemma {:induction false} TrimEachAppend(xs: seq<string>, ys: seq<string>)
    ensures TrimEach(xs + ys) == TrimEach(xs) + TrimEach(ys)
  {
    if xs == [] {
      assert xs + ys == ys;
    } else {
      assert (xs + ys)[1..] == xs[1..] + ys;
      TrimEachAppend(xs[1..], ys);
    }
  }

  lemma CleanAppend(xs: seq<string>, ys: seq<string>)
    ensures Clean(xs + ys) == Clean(xs) + Clean(ys)
  {
    TrimEachAppend(xs, ys);
    DropEmptyAppend(TrimEach(xs), TrimEach(ys));
  }

  lemma CleanPadded(pad: string, k: string)
    requires AllSpace(pad) && k != [] && IsTrimmed(k)
    ensures Clean([pad + k]) == [k]
  {
    TrimPadded(pad, k);
    assert [pad + k][1..] == [];
    assert TrimEach([pad + k]) == [k];
    assert [k][1..] == [];
    assert DropEmpty([k]) == [k];
  }

  /** The segments of a display: the first keyword with whatever stood
      before it, then each further keyword behind the space of ", ". */
  lemma {:induction false} SplitPaddedDisplay(pad: string, keywords: seq<string>)
    requires ',' !in pad
    requires |keywords| > 1
    requires ',' !in keywords[0]
    ensures Split(pad + Display(keywords), ',') == [pad + keywords[0]] + Split(" " + Display(keywords[1..]), ',')
  {
    var first, rest := keywords[0], keywords[1..];
    assert ',' !in pad + first;
    assert pad + Display(keywords) == (pad + first) + [','] + (" " + Display(rest));
    SplitAtFirst(pad + first, ',', " " + Display(rest));
  }

  /** One step of the round trip: the first keyword comes out of its own
      segment, the rest out of the text behind its separator. */
  lemma ParsePaddedDisplayStep(pad: string, keywords: seq<string>)
    requires AllSpace(pad) && ',' !in pad
    requires |keywords| > 1
    requires keywords[0] != [] && IsTrimmed(keywords[0]) && ',' !in keywords[0]
    ensures Parse(pad + Display(keywords)) == [keywords[0]] + Parse(" " + Display(keywords[1..]))
  {
    CleanPadded(pad, keywords[0]);
    SplitPaddedDisplay(pad, keywords);
    CleanAppend([pad + keywords[0]], Split(" " + Display(keywords[1..]), ','));
  }

  /** A single keyword behind whitespace parses back to itself. */
  lemma ParsePaddedSingle(pad: string, keyword: string)
    requires AllSpace(pad) && ',' !in pad
    requires WellFormed(keyword)
    ensures Parse(pad + Display([keyword])) == [keyword]
  {
    CleanPadded(pad, keyword);
    assert ',' !in pad + keyword;
    SplitNoSeparator(pad + keyword, ',');
    assert Display([keyword]) == keyword;
  }

  /** The space `join(", ")` leaves after each comma is whitespace. */
  lemma SeparatorPadding()
    ensures AllSpace(" ") && ',' !in " "
  {
    assert " "[0] == ' ';
  }

  /** The keywords after the first are well formed when all are. */
  lemma TailWellFormed(keywords: seq<string>)
    requires |keywords| > 0
    requires forall i :: 0 <= i < |keywords| ==> WellFormed(keywords[i])
    ensures forall i :: 0 <= i < |keywords[1..]| ==> WellFormed(keywords[1..][i])
  {
    forall i | 0 <= i < |keywords[1..]| ensures WellFormed(keywords[1..][i]) {
      assert keywords[1..][i] == keywords[i + 1];
    }
  }

  /** The round trip of a list, given the round trip of its tail. */
  lemma ParsePaddedDisplayCons(pad: string, keywords: seq<string>)
    requires AllSpace(pad) && ',' !in pad
    requires |keywords| > 1 && WellFormed(keywords[0])
    requires Parse(" " + Display(keywords[1..])) == keywords[1..]
    ensures Parse(pad + Display(keywords)) == keywords
  {
    ParsePaddedDisplayStep(pad, keywords);
    assert keywords == [keywords[0]] + keywords[1..];
  }

  /** The round trip behind a padded display: `pad` is the whitespace left
      in front of the first keyword by the previous separator. */
  lemma {:induction false} ParsePaddedDisplay(pad: string, keywords: seq<string>)
    requires AllSpace(pad) && ',' !in pad
    requires |keywords| > 0
    requires forall i :: 0 <= i < |keywords| ==> WellFormed(keywords[i])
    ensures Parse(pad + Display(keywords)) == keywords
    decreases |keywords|
  {
    var first := keywords[0];
    assert WellFormed(first);
    if |keywords| == 1 {
      ParsePaddedSingle(pad, first);
      assert keywords == [first];
    } else {
      var rest := keywords[1..];
      SeparatorPadding();
      TailWellFormed(keywords);
      ParsePaddedDisplay(" ", rest);
      ParsePaddedDisplayCons(pad, keywords);
    }
  }

  /** Showing well-formed keywords with `join(", ")` and parsing the text
      back gives the same list. */
  lemma DisplayThenParse(keywords: seq<string>)
    requires forall i :: 0 <= i < |keywords| ==> WellFormed(keywords[i])
    ensures Parse(Display(keywords)) == keywords
  {
    if keywords == [] {
      assert Split([], ',') == [[]];
      assert TrimEach([[]]) == [[]];
    } else {
      ParsePaddedDisplay([], keywords);
      assert [] + Display(keywords) == Display(keywords);
    }
  }

  /** Parsing is stable under display: the text a form shows for the
      keywords it parsed parses to the same keywords. */
  lemma ParseDisplayParse(input: string)
    ensures Parse(Display(Parse(input))) == Parse(input)
  {
    DisplayThenParse(Parse(input));
  }
}
