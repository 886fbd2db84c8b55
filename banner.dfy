/**
 * The error banner of displayElements: which message is shown above the
 * chart for the stocks whose data could not be obtained.
 */
module Banner {
  import opened Wrappers

  /** The indentation the source's backslash line continuations keep inside
      the banner texts. */
  const CONTINUATION: string := "                        "

  const SINGULAR_PREFIX: string :=
    "The following stock is not included in the chart " + CONTINUATION
    + "because some error has occurred when obtaining its " + CONTINUATION
    + "information: <b>"

  const PLURAL_PREFIX: string :=
    "The following stocks are not included in the chart " + CONTINUATION
    + "because some error has occurred when obtaining their " + CONTINUATION
    + "information: <b>"

  const SUFFIX: string := "</b>"

  /** `xs.join(sep)`; an array's `toString()` is its join with ",". */
  function Join(xs: seq<string>, sep: string): (r: string)
    ensures |xs| == 1 ==> r == xs[0]
    ensures xs == [] ==> r == ""
  {
    if xs == [] then ""
    else if |xs| == 1 then xs[0]
    else xs[0] + sep + Join(xs[1..], sep)
  }

  /** `s.replace(/,/g, ', ')`: a space after every comma. */
  function ReplaceCommas(s: string): (r: string)
    ensures |r| == |s| + multiset(s)[',']
  {
    if s == [] then []
    else
      assert s == [s[0]] + s[1..];
      (if s[0] == ',' then ", " else [s[0]]) + ReplaceCommas(s[1..])
  }

  /** Drops the space after every comma that has one. */
  function DropCommaSpaces(r: string): (s: string)
    ensures |s| <= |r|
  {
    if r == [] then []
    else if |r| >= 2 && r[0] == ',' && r[1] == ' ' then "," + DropCommaSpaces(r[2..])
    else [r[0]] + DropCommaSpaces(r[1..])
  }

  /** The banner for the stocks that failed: none when all succeeded, the
      singular text for one, the plural text listing them for several. */
  function ErrorBanner(error: seq<string>): (b: Option<string>)
    ensures b.None? <==> error == []
  {
    if |error| == 1 then Some(SINGULAR_PREFIX + Join(error, ",") + SUFFIX)
    else if |error| > 1 then Some(PLURAL_PREFIX + ReplaceCommas(Join(error, ",")) + SUFFIX)
    else None
  }

  // ---------------------------------------------------------------------------
  // Properties

  lemma {:induction false} ReplaceCommasAppend(a: string, b: string)
    ensures ReplaceCommas(a + b) == ReplaceCommas(a) + ReplaceCommas(b)
  {
    if a != [] {
      assert (a + b)[1..] == a[1..] + b;
      ReplaceCommasAppend(a[1..], b);
    } else {
      assert a + b == b;
    }
  }

  /** The spaces inserted after the commas are all that changes. */
  lemma {:induction false} ReplaceCommasUndone(s: string)
    ensures DropCommaSpaces(ReplaceCommas(s)) == s
  {
    if s != [] {
      ReplaceCommasUndone(s[1..]);
      var r := ReplaceCommas(s);
      if s[0] == ',' {
        assert r[2..] == ReplaceCommas(s[1..]);
      } else {
        assert r[1..] == ReplaceCommas(s[1..]);
      }
    }
  }

  /** A text without commas is left as it is. */
  lemma {:induction false} ReplaceWithoutCommas(s: string)
    requires ',' !in s
    ensures ReplaceCommas(s) == s
  {
    if s != [] {
      assert s == [s[0]] + s[1..];
      ReplaceWithoutCommas(s[1..]);
    }
  }

  /** For comma-free names, inserting the spaces turns the list joined with
      "," into the list joined with ", ". */
  lemma {:induction false} ReplaceJoin(xs: seq<string>)
    requires forall k :: 0 <= k < |xs| ==> ',' !in xs[k]
    ensures ReplaceCommas(Join(xs, ",")) == Join(xs, ", ")
  {
    if |xs| == 1 {
      ReplaceWithoutCommas(xs[0]);
    } else if |xs| > 1 {
      ReplaceJoin(xs[1..]);
      ReplaceCommasAppend(xs[0] + ",", Join(xs[1..], ","));
      ReplaceCommasAppend(xs[0], ",");
      ReplaceWithoutCommas(xs[0]);
      assert ReplaceCommas(",") == ", ";
    }
  }

  /** The three cases of the banner, with the failed stocks listed as the
      page shows them. */
  lemma BannerCases(error: seq<string>)
    requires forall k :: 0 <= k < |error| ==> ',' !in error[k]
    ensures error == [] ==> ErrorBanner(error) == None
    ensures |error| == 1 ==> ErrorBanner(error) == Some(SINGULAR_PREFIX + error[0] + SUFFIX)
    ensures |error| > 1 ==> ErrorBanner(error) == Some(PLURAL_PREFIX + Join(error, ", ") + SUFFIX)
  {
    if |error| > 1 {
      ReplaceJoin(error);
    }
  }

  /** x appears in s starting at position p. */
  predicate OccursAt(x: string, s: string, p: nat)
  {
    p + |x| <= |s| && s[p..p + |x|] == x
  }

  /** Every failed stock is named in the list of the banner. */
  lemma {:induction false} JoinNamesAll(xs: seq<string>, sep: string, i: nat)
    requires i < |xs|
    ensures exists p: nat :: OccursAt(xs[i], Join(xs, sep), p)
  {
    var j := Join(xs, sep);
    if i == 0 {
      assert j[0..|xs[0]|] == xs[0];
      assert OccursAt(xs[0], j, 0);
    } else {
      JoinNamesAll(xs[1..], sep, i - 1);
      var rest := Join(xs[1..], sep);
      var p: nat :| OccursAt(xs[1..][i - 1], rest, p);
      var offset := |xs[0] + sep|;
      assert j == xs[0] + sep + rest;
      assert j[offset + p..offset + p + |xs[i]|] == rest[p..p + |xs[i]|];
      assert OccursAt(xs[i], j, offset + p);
    }
  }

  /** Every comma-free failed stock is named, word for word, in the banner. */
  lemma BannerNamesAll(error: seq<string>, i: nat)
    requires i < |error|
    requires forall k :: 0 <= k < |error| ==> ',' !in error[k]
    ensures ErrorBanner(error).Some?
    ensures exists p: nat :: OccursAt(error[i], ErrorBanner(error).value, p)
  {
    BannerCases(error);
    var b := ErrorBanner(error).value;
    if |error| == 1 {
      var q := |SINGULAR_PREFIX|;
      assert b == SINGULAR_PREFIX + error[0] + SUFFIX;
      assert b[q..q + |error[0]|] == error[0];
      assert OccursAt(error[i], b, q);
    } else {
      JoinNamesAll(error, ", ", i);
      var j := Join(error, ", ");
      var p: nat :| OccursAt(error[i], j, p);
      var q := |PLURAL_PREFIX|;
      assert b == PLURAL_PREFIX + j + SUFFIX;
      assert b[q + p..q + p + |error[i]|] == j[p..p + |error[i]|];
      assert OccursAt(error[i], b, q + p);
    }
  }
}
