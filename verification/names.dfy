/**
 * The string rules the studio uses to find and label stems: the first
 * word of a stem name (`name.lower().split()[0]`), the sibling-file
 * naming `{base}_{stem}.wav` with `base` from `os.path.splitext`, and the
 * search for already separated stems in the fixed stem order.
 */
module Names {
  import opened Common

  /** The characters `str.split()` with no argument splits on. */
  predicate IsSpace(c: char) {
    || '\t' <= c <= '\r'
    || '\U{1c}' <= c <= ' '
    || c == '\U{85}' || c == '\U{a0}' || c == '\U{1680}'
    || '\U{2000}' <= c <= '\U{200a}'
    || c == '\U{2028}' || c == '\U{2029}' || c == '\U{202f}' || c == '\U{205f}' || c == '\U{3000}'
  }

  /** `c.lower()` for the ASCII letters; every other character is kept. */
  function LowerChar(c: char): char {
    if 'A' <= c <= 'Z' then (c as int + 32) as char else c
  }

  /** `c.upper()` for the ASCII letters; every other character is kept. */
  function UpperChar(c: char): char {
    if 'a' <= c <= 'z' then (c as int - 32) as char else c
  }

  /**
   * `s.lower()`: no capital is left, whitespace stays where it was, a
   * capital becomes the small letter it is the capital of, and every
   * other character is kept.
   */
  function Lower(s: string): (r: string)
    ensures |r| == |s|
    ensures forall i :: 0 <= i < |r| ==> !('A' <= r[i] <= 'Z')
    ensures forall i :: 0 <= i < |s| ==> (IsSpace(r[i]) <==> IsSpace(s[i]))
    ensures forall i :: 0 <= i < |s| && 'A' <= s[i] <= 'Z' ==> 'a' <= r[i] <= 'z' && UpperChar(r[i]) == s[i]
    ensures forall i :: 0 <= i < |s| && !('A' <= s[i] <= 'Z') ==> r[i] == s[i]
  {
    seq(|s|, i requires 0 <= i < |s| => LowerChar(s[i]))
  }

  /**
   * `s.upper()`: no small letter is left, whitespace stays where it was, a
   * small letter becomes its capital, and every other character is kept.
   */
  function Upper(s: string): (r: string)
    ensures |r| == |s|
    ensures forall i :: 0 <= i < |r| ==> !('a' <= r[i] <= 'z')
    ensures forall i :: 0 <= i < |s| ==> (IsSpace(r[i]) <==> IsSpace(s[i]))
    ensures forall i :: 0 <= i < |s| && 'a' <= s[i] <= 'z' ==> 'A' <= r[i] <= 'Z' && LowerChar(r[i]) == s[i]
    ensures forall i :: 0 <= i < |s| && !('a' <= s[i] <= 'z') ==> r[i] == s[i]
  {
    seq(|s|, i requires 0 <= i < |s| => UpperChar(s[i]))
  }

  /** Lowering an already lowered string changes nothing. */
  lemma LowerIdempotent(s: string)
    ensures Lower(Lower(s)) == Lower(s)
  {
    var once := Lower(s);
    assert forall i :: 0 <= i < |once| ==> Lower(once)[i] == once[i];
  }

  /** Lowering forgets an earlier upper-casing: only the letters' case differs. */
  lemma LowerIgnoresUpper(s: string)
    ensures Lower(Upper(s)) == Lower(s)
  {
    var up := Upper(s);
    assert forall i :: 0 <= i < |s| ==> Lower(up)[i] == Lower(s)[i];
  }

  predicate AllSpace(s: string) {
    forall i :: 0 <= i < |s| ==> IsSpace(s[i])
  }

  predicate NoSpace(s: string) {
    forall i :: 0 <= i < |s| ==> !IsSpace(s[i])
  }

  /** The longest prefix of `s` without whitespace. */
  function WordPrefix(s: string): string {
    if s == [] || IsSpace(s[0]) then [] else [s[0]] + WordPrefix(s[1..])
  }

  /** `s.split()[0]`, or None where `split()` gives an empty list. */
  function FirstWord(s: string): Option<string> {
    if s == [] then None
    else if IsSpace(s[0]) then FirstWord(s[1..])
    else Some(WordPrefix(s))
  }

  /** The number of whitespace characters `s` starts with. */
  function LeadingSpace(s: string): (k: nat)
    ensures k <= |s|
  {
    if s == [] || !IsSpace(s[0]) then 0 else 1 + LeadingSpace(s[1..])
  }

  lemma {:induction false} WordPrefixIsMaximal(s: string)
    ensures |WordPrefix(s)| <= |s| && WordPrefix(s) == s[..|WordPrefix(s)|]
    ensures NoSpace(WordPrefix(s))
    ensures |WordPrefix(s)| == |s| || IsSpace(s[|WordPrefix(s)|])
  {
    if s != [] && !IsSpace(s[0]) {
      WordPrefixIsMaximal(s[1..]);
    }
  }

  /** `split()` yields no word exactly when the string is all whitespace. */
  lemma {:induction false} FirstWordNoneIffAllSpace(s: string)
    ensures FirstWord(s).None? <==> AllSpace(s)
  {
    if s != [] {
      FirstWordNoneIffAllSpace(s[1..]);
      assert forall i :: 1 <= i < |s| ==> s[i] == s[1..][i - 1];
    }
  }

  /**
   * A word found is a non-empty run of non-space characters that follows
   * the leading whitespace and ends at whitespace or at the end of `s`.
   */
  lemma {:induction false} FirstWordIsDelimited(s: string)
    requires FirstWord(s).Some?
    ensures var k, w := LeadingSpace(s), FirstWord(s).value;
      && |w| > 0 && NoSpace(w) && AllSpace(s[..k])
      && k + |w| <= |s| && s[k..k + |w|] == w
      && (k + |w| == |s| || IsSpace(s[k + |w|]))
  {
    if IsSpace(s[0]) {
      var t := s[1..];
      FirstWordIsDelimited(t);
      var k, w := LeadingSpace(t), FirstWord(t).value;
      assert LeadingSpace(s) == k + 1 && FirstWord(s).value == w;
      assert s[..k + 1] == [s[0]] + t[..k];
      assert s[k + 1..k + 1 + |w|] == t[k..k + |w|];
      assert k + 1 + |w| < |s| ==> s[k + 1 + |w|] == t[k + |w|];
    } else {
      WordPrefixIsMaximal(s);
    }
  }

  lemma {:induction false} WordPrefixOfWord(w: string, rest: string)
    requires NoSpace(w) && (rest == [] || IsSpace(rest[0]))
    ensures WordPrefix(w + rest) == w
  {
    if w != [] {
      WordPrefixOfWord(w[1..], rest);
      assert (w + rest)[1..] == w[1..] + rest;
    }
  }

  /** Conversely, whitespace, a word and a delimiter make that word the first one. */
  lemma {:induction false} FirstWordOfDelimited(lead: string, w: string, rest: string)
    requires AllSpace(lead) && |w| > 0 && NoSpace(w) && (rest == [] || IsSpace(rest[0]))
    ensures FirstWord(lead + w + rest) == Some(w)
  {
    if lead == [] {
      assert lead + w + rest == w + rest;
      WordPrefixOfWord(w, rest);
    } else {
      FirstWordOfDelimited(lead[1..], w, rest);
      assert (lead + w + rest)[1..] == lead[1..] + w + rest;
    }
  }

  /** The lanes named in `track_map`. */
  function StemLane(word: string): Option<int> {
    if word == "vocals" then Some(0)
    else if word == "drums" then Some(1)
    else if word == "bass" then Some(2)
    else if word == "other" then Some(3)
    else None
  }

  /**
   * `track_map.get(name.lower().split()[0], idx)`; None where indexing
   * the empty word list raises IndexError.
   */
  function MappedTrack(name: string, idx: int): Option<int> {
    match FirstWord(Lower(name))
    case None => None
    case Some(w) => Some(match StemLane(w) case Some(lane) => lane case None => idx)
  }

  /** The mapping fails exactly on an all-whitespace name, and otherwise picks a fixed lane or idx. */
  lemma MappedTrackCases(name: string, idx: int)
    ensures MappedTrack(name, idx).None? <==> AllSpace(name)
    ensures MappedTrack(name, idx).Some? ==>
      var t := MappedTrack(name, idx).value;
      0 <= t <= 3 || t == idx
  {
    FirstWordNoneIffAllSpace(Lower(name));
    if AllSpace(name) {
      assert AllSpace(Lower(name));
    } else {
      var i :| 0 <= i < |name| && !IsSpace(name[i]);
      assert !IsSpace(Lower(name)[i]);
    }
  }

  /**
   * The lane does not depend on letter case: a lowered name and the
   * upper-cased label `_add_clip_safe` gives the clip map like the name.
   */
  lemma MappedTrackIgnoresCase(name: string, idx: int)
    ensures MappedTrack(Lower(name), idx) == MappedTrack(name, idx)
    ensures MappedTrack(Upper(name), idx) == MappedTrack(name, idx)
  {
    LowerIdempotent(name);
    LowerIgnoresUpper(name);
  }

  /** A stem name in any letter case, after leading blanks and before further words, lands in that stem's lane. */
  lemma StemNameMaps(lead: string, word: string, rest: string, idx: int)
    requires AllSpace(lead) && (rest == [] || IsSpace(rest[0]))
    requires Lower(word) in ["vocals", "drums", "bass", "other"]
    ensures MappedTrack(lead + word + rest, idx) == StemLane(Lower(word))
  {
    var lw := Lower(word);
    StemWordIsWord(lw);
    LowerConcat(lead, word);
    LowerConcat(lead + word, rest);
    assert AllSpace(Lower(lead));
    assert Lower(rest) == [] || IsSpace(Lower(rest)[0]);
    FirstWordOfDelimited(Lower(lead), lw, Lower(rest));
  }

  /** Case conversion works character by character, so it splits over concatenation. */
  lemma LowerConcat(a: string, b: string)
    ensures Lower(a + b) == Lower(a) + Lower(b)
  {
    assert forall i :: 0 <= i < |a + b| ==> Lower(a + b)[i] == (Lower(a) + Lower(b))[i];
  }

  /** Each stem name is one non-empty word. */
  lemma StemWordIsWord(w: string)
    requires w in ["vocals", "drums", "bass", "other"]
    ensures |w| > 0 && NoSpace(w)
  {
  }

  /** The index of the last `c` in `s`, or -1 (`str.rfind`). */
  function LastIndex(s: string, c: char): (r: int)
    ensures -1 <= r < |s| && (r >= 0 ==> s[r] == c)
  {
    if s == [] then -1
    else if s[|s| - 1] == c then |s| - 1
    else LastIndex(s[..|s| - 1], c)
  }

  lemma {:induction false} LastIndexIsLast(s: string, c: char)
    ensures forall j :: LastIndex(s, c) < j < |s| ==> s[j] != c
  {
    if s != [] && s[|s| - 1] != c {
      LastIndexIsLast(s[..|s| - 1], c);
    }
  }

  /** A `c` with none after it is the one `rfind` finds. */
  lemma LastIndexAt(s: string, c: char, k: int)
    requires 0 <= k < |s| && s[k] == c
    requires forall j :: k < j < |s| ==> s[j] != c
    ensures LastIndex(s, c) == k
  {
    LastIndexIsLast(s, c);
  }

  /** `os.path.splitext(p)[0]` (POSIX): drop the last extension, unless it is all leading dots of the file name. */
  function SplitExtBase(p: string): string {
    var sep := LastIndex(p, '/');
    var dot := LastIndex(p, '.');
    if sep < dot && exists i :: sep < i < dot && p[i] != '.' then p[..dot] else p
  }

  /** `f"{base}_{stem}.wav"`. */
  function StemPath(base: string, stem: string): string {
    base + "_" + stem + ".wav"
  }

  predicate PlainName(s: string) {
    forall i :: 0 <= i < |s| ==> s[i] != '.' && s[i] != '/'
  }

  /** Splitting a stem file name gives back `{base}_{stem}`: the saved stems are found again. */
  lemma StemPathSplits(base: string, stem: string)
    requires PlainName(stem)
    ensures SplitExtBase(StemPath(base, stem)) == base + "_" + stem
  {
    var p := StemPath(base, stem);
    var dot := |base| + 1 + |stem|;
    assert p[dot] == '.';
    assert p[dot + 1..] == "wav";
    LastIndexAt(p, '.', dot);
    LastIndexIsLast(p, '/');
    assert forall j :: |base| <= j < |p| ==> p[j] != '/' by {
      forall j | |base| <= j < |p| ensures p[j] != '/' {
        if |base| < j < dot { assert p[j] == stem[j - |base| - 1]; }
      }
    }
    assert p[|base|] == '_';
    assert p[..dot] == base + "_" + stem;
  }

  /** Distinct stems get distinct files. */
  lemma StemPathInjective(base: string, s1: string, s2: string)
    requires StemPath(base, s1) == StemPath(base, s2)
    ensures s1 == s2
  {
    var p := StemPath(base, s1);
    assert |s1| == |s2|;
    assert s1 == p[|base| + 1..|base| + 1 + |s1|];
  }

  /** `stem_order`. */
  const StemOrder: seq<string> := ["vocals", "drums", "bass", "other"]

  /** The stems in `stems` whose file exists, with their paths, in order. */
  function ExistingAmong(stems: seq<string>, base: string, present: set<string>): seq<(string, string)> {
    if stems == [] then []
    else
      var front := ExistingAmong(stems[..|stems| - 1], base, present);
      var last := stems[|stems| - 1];
      if StemPath(base, last) in present then front + [(last, StemPath(base, last))] else front
  }

  /** What the stem search finds next to `base`. */
  function ExistingStems(base: string, present: set<string>): seq<(string, string)> {
    ExistingAmong(StemOrder, base, present)
  }

  /** The positions in `stems` of the stems whose file exists. */
  function Selected(stems: seq<string>, base: string, present: set<string>): seq<int> {
    if stems == [] then []
    else
      var front := Selected(stems[..|stems| - 1], base, present);
      if StemPath(base, stems[|stems| - 1]) in present then front + [|stems| - 1] else front
  }

  /**
   * The search result is a sub-sequence of the candidate list, in its
   * order: entry i is the stem at position sel[i] paired with its path,
   * the positions increase, and a skipped position has no file.
   */
  lemma {:induction false} ExistingAmongSelects(stems: seq<string>, base: string, present: set<string>)
    ensures var found, sel := ExistingAmong(stems, base, present), Selected(stems, base, present);
      && |found| == |sel|
      && (forall i :: 0 <= i < |sel| ==> 0 <= sel[i] < |stems| && found[i] == (stems[sel[i]], StemPath(base, stems[sel[i]])))
      && (forall i, j :: 0 <= i < j < |sel| ==> sel[i] < sel[j])
      && (forall a :: 0 <= a < |stems| ==> (a in sel <==> StemPath(base, stems[a]) in present))
  {
    if stems != [] {
      var front := stems[..|stems| - 1];
      ExistingAmongSelects(front, base, present);
      assert forall a :: 0 <= a < |front| ==> front[a] == stems[a];
    }
  }

  /** A pair is found exactly when it is a listed stem whose sibling file exists. */
  lemma {:induction false} ExistingAmongMembers(stems: seq<string>, base: string, present: set<string>, stem: string, path: string)
    ensures (stem, path) in ExistingAmong(stems, base, present) <==>
      stem in stems && path == StemPath(base, stem) && path in present
  {
    if stems != [] {
      var front := stems[..|stems| - 1];
      ExistingAmongMembers(front, base, present, stem, path);
      assert stems == front + [stems[|stems| - 1]];
    }
  }

  /** The search loop of `_try_load_existing_stems`: try each stem's sibling file in order. */
  method FindExistingStems(base: string, present: set<string>) returns (found: seq<(string, string)>)
    ensures found == ExistingStems(base, present)
  {
    found := [];
    var i := 0;
    while i < |StemOrder|
      invariant 0 <= i <= |StemOrder|
      invariant found == ExistingAmong(StemOrder[..i], base, present)
    {
      var stem := StemOrder[i];
      var p := StemPath(base, stem);
      assert StemOrder[..i + 1][..i] == StemOrder[..i];
      if p in present {
        found := found + [(stem, p)];
      }
      i := i + 1;
    }
    assert StemOrder[..i] == StemOrder;
  }
}
