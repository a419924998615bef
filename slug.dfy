/**
 * The URL slug `createSensayReplica` gives a new replica
 * (src/services/sensay.ts:72-78): the name lower-cased, each run of white
 * space turned into one hyphen, everything outside `[a-z0-9-]` dropped, then
 * a random hash and the time in milliseconds, joined by hyphens. The hash and
 * the time are parameters.
 */
module ReplicaSlug {
  import opened Common

  predicate IsSlugChar(c: char) {
    'a' <= c <= 'z' || '0' <= c <= '9' || c == '-'
  }

  /**
   * `.replace(/\s+/g, "-")`: every maximal run of white space becomes one
   * hyphen, written where the run ends.
   */
  function HyphenateSpaces(s: string): string {
    if s == [] then [] else HyphenHead(s) + HyphenateSpaces(s[1..])
  }

  /** What `HyphenateSpaces` writes for the first character of a non-empty string. */
  function HyphenHead(s: string): string
    requires s != []
  {
    if !IsSpace(s[0]) then [s[0]]
    else if |s| > 1 && IsSpace(s[1]) then []
    else "-"
  }

  /** Appending after a character that is not the end of a white-space run leaves its output alone. */
  lemma HyphenHeadOfAppend(x: string, y: string)
    requires x != []
    requires y == [] || !IsSpace(x[|x| - 1]) || !IsSpace(y[0])
    ensures HyphenHead(x + y) == HyphenHead(x)
  {
    assert (x + y)[0] == x[0];
    if |x| > 1 {
      assert (x + y)[1] == x[1];
    } else if y != [] {
      assert (x + y)[1] == y[0];
    }
  }

  /** No white space is left, and a string without white space is left as it is. */
  lemma {:induction false} HyphenateLeavesNoSpace(s: string)
    ensures forall i :: 0 <= i < |HyphenateSpaces(s)| ==> !IsSpace(HyphenateSpaces(s)[i])
    ensures (forall i :: 0 <= i < |s| ==> !IsSpace(s[i])) ==> HyphenateSpaces(s) == s
  {
    if s != [] {
      HyphenateLeavesNoSpace(s[1..]);
    }
  }

  /**
   * Hyphenation works run by run: splitting a string anywhere but inside a
   * run of white space splits its hyphenation at the same place.
   */
  lemma {:induction false} HyphenateSplit(x: string, y: string)
    requires x == [] || y == [] || !IsSpace(x[|x| - 1]) || !IsSpace(y[0])
    ensures HyphenateSpaces(x + y) == HyphenateSpaces(x) + HyphenateSpaces(y)
  {
    if x == [] {
      assert x + y == y;
    } else if y == [] {
      assert x + y == x;
    } else {
      var tail := x[1..];
      assert (x + y)[0] == x[0] && (x + y)[1..] == tail + y;
      HyphenateSplit(tail, y);
      assert |x| > 1 ==> (x + y)[1] == x[1];
      var ht, hy := HyphenateSpaces(tail), HyphenateSpaces(y);
      var head := HyphenHead(x);
      HyphenHeadOfAppend(x, y);
      assert HyphenateSpaces(x) == head + ht;
      assert HyphenateSpaces(x + y) == HyphenHead(x + y) + HyphenateSpaces((x + y)[1..]);
      assert head + (ht + hy) == (head + ht) + hy;
    }
  }

  /** A non-empty run of white space becomes exactly one hyphen. */
  lemma {:induction false} HyphenateRun(ws: string)
    requires ws != [] && forall i :: 0 <= i < |ws| ==> IsSpace(ws[i])
    ensures HyphenateSpaces(ws) == "-"
  {
    if |ws| > 1 {
      HyphenateRun(ws[1..]);
    }
  }

  /** The name part of the slug: lower case, hyphens for white space, nothing outside `[a-z0-9-]`. */
  function SlugBase(name: string): (r: string)
    ensures forall i :: 0 <= i < |r| ==> IsSlugChar(r[i])
  {
    Filter(HyphenateSpaces(ToLower(name)), IsSlugChar)
  }

  /** A string made of slug characters is its own slug base. */
  lemma SlugBaseFixesSlugs(s: string)
    requires forall i :: 0 <= i < |s| ==> IsSlugChar(s[i])
    ensures SlugBase(s) == s
  {
    var lower := ToLower(s);
    assert lower == s;
    HyphenateLeavesNoSpace(s);
    FilterKeepsAll(s, IsSlugChar);
  }

  /** Normalising a name twice is normalising it once. */
  lemma SlugBaseIdempotent(name: string)
    ensures SlugBase(SlugBase(name)) == SlugBase(name)
  {
    SlugBaseFixesSlugs(SlugBase(name));
  }

  /**
   * Two words separated by any run of white space give the slug bases of the
   * two words joined by one hyphen: lower-cased, the run turned into "-".
   */
  lemma SlugBaseJoinsWords(a: string, ws: string, b: string)
    requires ws != [] && forall i :: 0 <= i < |ws| ==> IsSpace(ws[i])
    requires a == [] || !IsSpace(a[|a| - 1])
    requires b == [] || !IsSpace(b[0])
    ensures SlugBase(a + ws + b) == SlugBase(a) + "-" + SlugBase(b)
  {
    var la, lw, lb := ToLower(a), ToLower(ws), ToLower(b);
    ToLowerAppend(a, ws + b);
    ToLowerAppend(ws, b);
    assert a + ws + b == a + (ws + b);
    assert forall i :: 0 <= i < |lw| ==> IsSpace(lw[i]);
    assert la == [] || !IsSpace(la[|la| - 1]);
    assert lb == [] || !IsSpace(lb[0]);
    HyphenateJoins(la, lw, lb);
    var ha, hb := HyphenateSpaces(la), HyphenateSpaces(lb);
    FilterJoin(ha, hb);
  }

  /** Filtering two strings joined by a hyphen keeps the hyphen. */
  lemma FilterJoin(x: string, y: string)
    ensures Filter(x + "-" + y, IsSlugChar) == Filter(x, IsSlugChar) + "-" + Filter(y, IsSlugChar)
  {
    var dash := "-";
    FilterAppend(x + dash, y, IsSlugChar);
    FilterAppend(x, dash, IsSlugChar);
    assert Filter(dash, IsSlugChar) == dash;
  }

  /** Hyphenating two words around a run of white space joins their hyphenations with one "-". */
  lemma HyphenateJoins(a: string, ws: string, b: string)
    requires ws != [] && forall i :: 0 <= i < |ws| ==> IsSpace(ws[i])
    requires a == [] || !IsSpace(a[|a| - 1])
    requires b == [] || !IsSpace(b[0])
    ensures HyphenateSpaces(a + (ws + b)) == HyphenateSpaces(a) + "-" + HyphenateSpaces(b)
  {
    RunThenWord(ws, b);
    HyphenateSplit(a, ws + b);
  }

  lemma RunThenWord(ws: string, b: string)
    requires ws != [] && forall i :: 0 <= i < |ws| ==> IsSpace(ws[i])
    requires b == [] || !IsSpace(b[0])
    ensures HyphenateSpaces(ws + b) == "-" + HyphenateSpaces(b)
  {
    HyphenateSplit(ws, b);
    HyphenateRun(ws);
  }

  /** A word without white space is lower-cased and stripped of everything outside `[a-z0-9-]`. */
  lemma SlugBaseOfWord(w: string)
    requires forall i :: 0 <= i < |w| ==> !IsSpace(w[i])
    ensures SlugBase(w) == Filter(ToLower(w), IsSlugChar)
  {
    var lw := ToLower(w);
    assert forall i :: 0 <= i < |lw| ==> !IsSpace(lw[i]);
    HyphenateLeavesNoSpace(lw);
  }

  function DigitChar(d: nat): char
    requires d < 10
  {
    "0123456789"[d]
  }

  /** A number as JavaScript writes it in a string concatenation (for a non-negative integer). */
  function DecimalString(n: nat): (s: string)
    ensures s != [] && forall i :: 0 <= i < |s| ==> '0' <= s[i] <= '9'
  {
    if n < 10 then [DigitChar(n)] else DecimalString(n / 10) + [DigitChar(n % 10)]
  }

  /** The value of a string of decimal digits. */
  function DecimalValue(s: string): nat
    requires forall i :: 0 <= i < |s| ==> '0' <= s[i] <= '9'
  {
    if s == [] then 0 else 10 * DecimalValue(s[..|s| - 1]) + (s[|s| - 1] as int - '0' as int)
  }

  /** The decimal rendering of the timestamp reads back as the timestamp. */
  lemma {:induction false} DecimalRoundTrip(n: nat)
    ensures DecimalValue(DecimalString(n)) == n
  {
    var s := DecimalString(n);
    if n >= 10 {
      DecimalRoundTrip(n / 10);
      assert s[..|s| - 1] == DecimalString(n / 10);
    }
  }

  /** `slugBase + "-" + randomHash + "-" + Date.now()`. */
  function Slug(name: string, randomHash: string, now: nat): string {
    SlugBase(name) + "-" + randomHash + "-" + DecimalString(now)
  }

  /** With a base-36 hash, every character of the slug is one a URL path takes as is. */
  lemma SlugIsUrlSafe(name: string, randomHash: string, now: nat)
    requires forall i :: 0 <= i < |randomHash| ==> 'a' <= randomHash[i] <= 'z' || '0' <= randomHash[i] <= '9'
    ensures forall i :: 0 <= i < |Slug(name, randomHash, now)| ==> IsSlugChar(Slug(name, randomHash, now)[i])
  {
    var base, digits := SlugBase(name), DecimalString(now);
    var slug := Slug(name, randomHash, now);
    forall i | 0 <= i < |slug| ensures IsSlugChar(slug[i]) {
      if i < |base| {
        assert slug[i] == base[i];
      } else if i == |base| || i == |base| + 1 + |randomHash| {
        assert slug[i] == '-';
      } else if i < |base| + 1 + |randomHash| {
        assert slug[i] == randomHash[i - |base| - 1];
      } else {
        assert slug[i] == digits[i - |base| - 2 - |randomHash|];
      }
    }
  }
}
