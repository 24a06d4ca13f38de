/** `slugify` from the category actions: lower-case, decompose accented letters (NFD), drop
    the combining marks, turn every run of characters other than `a-z0-9` into one dash,
    and drop a dash at either end. Case mapping and decomposition cover ASCII and the
    Latin-1 letters (those of Portuguese category names among them). */
module Slugs {
  import opened JsText

  predicate IsSlugChar(c: char) { IsAsciiLower(c) || IsDigit(c) }

  /** The combining diacritical marks, U+0300 to U+036F. */
  predicate IsMark(c: char) { '\U{300}' <= c <= '\U{36F}' }

  /** The upper-case letters `toLowerCase` maps 32 code points up: A-Z and U+00C0 to
      U+00DE except the multiplication sign U+00D7. */
  predicate IsLatinUpper(c: char) { IsAsciiUpper(c) || ('\U{C0}' <= c <= '\U{DE}' && c != '\U{D7}') }

  function LowerLatin(c: char): char {
    if IsLatinUpper(c) then (c as int + 32) as char else c
  }

  /** `.toLowerCase()` */
  function Lower(s: string): (r: string)
    ensures |r| == |s|
  {
    if s == [] then [] else [LowerLatin(s[0])] + Lower(s[1..])
  }

  /** Canonical decompositions of the lower-case Latin-1 letters: base letter, then mark. */
  const Decompositions: map<char, (char, char)> := map[
    '\U{E0}' := ('a', '\U{300}'), '\U{E1}' := ('a', '\U{301}'), '\U{E2}' := ('a', '\U{302}'),
    '\U{E3}' := ('a', '\U{303}'), '\U{E4}' := ('a', '\U{308}'), '\U{E5}' := ('a', '\U{30A}'),
    '\U{E7}' := ('c', '\U{327}'),
    '\U{E8}' := ('e', '\U{300}'), '\U{E9}' := ('e', '\U{301}'), '\U{EA}' := ('e', '\U{302}'),
    '\U{EB}' := ('e', '\U{308}'),
    '\U{EC}' := ('i', '\U{300}'), '\U{ED}' := ('i', '\U{301}'), '\U{EE}' := ('i', '\U{302}'),
    '\U{EF}' := ('i', '\U{308}'),
    '\U{F1}' := ('n', '\U{303}'),
    '\U{F2}' := ('o', '\U{300}'), '\U{F3}' := ('o', '\U{301}'), '\U{F4}' := ('o', '\U{302}'),
    '\U{F5}' := ('o', '\U{303}'), '\U{F6}' := ('o', '\U{308}'),
    '\U{F9}' := ('u', '\U{300}'), '\U{FA}' := ('u', '\U{301}'), '\U{FB}' := ('u', '\U{302}'),
    '\U{FC}' := ('u', '\U{308}'),
    '\U{FD}' := ('y', '\U{301}'), '\U{FF}' := ('y', '\U{308}')
  ]

  function Decompose(c: char): (r: string)
    ensures 1 <= |r| <= 2
  {
    if c in Decompositions then [Decompositions[c].0, Decompositions[c].1] else [c]
  }

  /** `.normalize('NFD')` */
  function Nfd(s: string): string {
    if s == [] then [] else Decompose(s[0]) + Nfd(s[1..])
  }

  predicate SlugAlphabet(s: string) {
    forall i :: 0 <= i < |s| ==> IsSlugChar(s[i]) || s[i] == '-'
  }

  predicate NoDoubleDash(s: string) {
    forall i :: 0 <= i < |s| - 1 ==> !(s[i] == '-' && s[i + 1] == '-')
  }

  /** What `slugify` promises of its output. */
  predicate IsSlug(s: string) {
    && SlugAlphabet(s)
    && NoDoubleDash(s)
    && (s != [] ==> s[0] != '-' && s[|s| - 1] != '-')
  }

  /** `.replace(/[\u0300-\u036f]/g, '')` */
  function StripMarks(s: string): (r: string)
    ensures |r| <= |s|
    ensures forall i :: 0 <= i < |r| ==> !IsMark(r[i])
  {
    if s == [] then [] else (if IsMark(s[0]) then [] else [s[0]]) + StripMarks(s[1..])
  }

  /** The rest of the text after a run of characters other than `a-z0-9`. */
  function SkipRun(s: string): (r: string)
    ensures |r| <= |s|
    ensures r == [] || IsSlugChar(r[0])
  {
    if s != [] && !IsSlugChar(s[0]) then SkipRun(s[1..]) else s
  }

  /** `.replace(/[^a-z0-9]+/g, '-')`: each maximal run of other characters becomes one dash. */
  function Collapse(s: string): (r: string)
    ensures SlugAlphabet(r) && NoDoubleDash(r)
    ensures r == [] <==> s == []
    ensures s != [] && IsSlugChar(s[0]) ==> r[0] == s[0]
    decreases |s|
  {
    if s == [] then []
    else if IsSlugChar(s[0]) then [s[0]] + Collapse(s[1..])
    else "-" + Collapse(SkipRun(s[1..]))
  }

  /** `.replace(/^-|-$/g, '')`: a dash at the start and a dash at the end go. */
  function TrimDashes(s: string): string {
    var a := if s != [] && s[0] == '-' then s[1..] else s;
    if a != [] && a[|a| - 1] == '-' then a[..|a| - 1] else a
  }

  /** `slugify(name)` */
  function Slugify(name: string): string {
    TrimDashes(Collapse(StripMarks(Nfd(Lower(name)))))
  }

  /** Trimming the edge dashes of collapsed text leaves a slug. */
  lemma TrimDashesMakesSlug(s: string)
    requires SlugAlphabet(s) && NoDoubleDash(s)
    ensures IsSlug(TrimDashes(s))
  {
    var a := if s != [] && s[0] == '-' then s[1..] else s;
    assert SlugAlphabet(a) && NoDoubleDash(a) by {
      if s != [] && s[0] == '-' {
        forall i | 0 <= i < |a| ensures a[i] == s[i + 1] { }
      }
    }
    assert a != [] ==> a[0] != '-';
    if a != [] && a[|a| - 1] == '-' {
      var b := a[..|a| - 1];
      assert forall i :: 0 <= i < |b| ==> b[i] == a[i];
      if b != [] {
        assert b[|b| - 1] == a[|a| - 2];
      }
    }
  }

  /** `slugify`'s output uses only `a-z`, `0-9` and `-`, has no two dashes in a row, and
      neither starts nor ends with a dash. */
  lemma SlugifyMakesSlug(name: string)
    ensures IsSlug(Slugify(name))
  {
    TrimDashesMakesSlug(Collapse(StripMarks(Nfd(Lower(name)))));
  }

  lemma {:induction false} LowerKeepsNonUpper(s: string)
    requires forall i :: 0 <= i < |s| ==> !IsLatinUpper(s[i])
    ensures Lower(s) == s
  {
    if s != [] { LowerKeepsNonUpper(s[1..]); }
  }

  /** Every decomposed letter lies at U+00E0 or above. */
  lemma DecomposedAreLatin1(c: char)
    requires c < '\U{E0}'
    ensures Decompose(c) == [c]
  {
    assert c !in Decompositions;
  }

  lemma {:induction false} NfdKeepsAscii(s: string)
    requires forall i :: 0 <= i < |s| ==> s[i] < '\U{E0}'
    ensures Nfd(s) == s
  {
    if s != [] {
      DecomposedAreLatin1(s[0]);
      NfdKeepsAscii(s[1..]);
    }
  }

  lemma {:induction false} StripMarksKeepsUnmarked(s: string)
    requires forall i :: 0 <= i < |s| ==> !IsMark(s[i])
    ensures StripMarks(s) == s
  {
    if s != [] { StripMarksKeepsUnmarked(s[1..]); }
  }

  /** Collapsing changes nothing in text that has no run of two separators. */
  lemma {:induction false} CollapseKeepsCollapsed(s: string)
    requires SlugAlphabet(s) && NoDoubleDash(s)
    ensures Collapse(s) == s
    decreases |s|
  {
    if s != [] {
      var t := s[1..];
      assert SlugAlphabet(t) && NoDoubleDash(t) by {
        forall i | 0 <= i < |t| ensures t[i] == s[i + 1] { }
      }
      if !IsSlugChar(s[0]) {
        assert t == [] || IsSlugChar(t[0]);
        assert SkipRun(t) == t;
      }
      CollapseKeepsCollapsed(t);
    }
  }

  /** A slug is its own slug. */
  lemma SlugifyKeepsSlug(s: string)
    requires IsSlug(s)
    ensures Slugify(s) == s
  {
    forall i | 0 <= i < |s| ensures s[i] < '\U{E0}' && !IsLatinUpper(s[i]) && !IsMark(s[i]) {
      assert IsSlugChar(s[i]) || s[i] == '-';
    }
    LowerKeepsNonUpper(s);
    NfdKeepsAscii(s);
    StripMarksKeepsUnmarked(s);
    CollapseKeepsCollapsed(s);
    assert TrimDashes(s) == s;
  }

  /** `slugify` is idempotent. */
  lemma SlugifyIdempotent(name: string)
    ensures Slugify(Slugify(name)) == Slugify(name)
  {
    SlugifyMakesSlug(name);
    SlugifyKeepsSlug(Slugify(name));
  }

  /** The letters and digits of a text, in order. */
  function Alnums(s: string): (r: string)
    ensures forall i :: 0 <= i < |r| ==> IsSlugChar(r[i])
  {
    if s == [] then [] else (if IsSlugChar(s[0]) then [s[0]] else []) + Alnums(s[1..])
  }

  lemma {:induction false} AlnumsConcat(a: string, b: string)
    ensures Alnums(a + b) == Alnums(a) + Alnums(b)
  {
    if a == [] {
      assert a + b == b;
    } else {
      assert (a + b)[1..] == a[1..] + b;
      AlnumsConcat(a[1..], b);
    }
  }

  lemma {:induction false} AlnumsStripMarks(s: string)
    ensures Alnums(StripMarks(s)) == Alnums(s)
  {
    if s != [] {
      var head := if IsMark(s[0]) then [] else [s[0]];
      AlnumsConcat(head, StripMarks(s[1..]));
      AlnumsStripMarks(s[1..]);
    }
  }

  lemma {:induction false} AlnumsSkipRun(s: string)
    ensures Alnums(SkipRun(s)) == Alnums(s)
  {
    if s != [] && !IsSlugChar(s[0]) { AlnumsSkipRun(s[1..]); }
  }

  lemma {:induction false} AlnumsCollapse(s: string)
    ensures Alnums(Collapse(s)) == Alnums(s)
    decreases |s|
  {
    if s != [] {
      if IsSlugChar(s[0]) {
        AlnumsConcat([s[0]], Collapse(s[1..]));
        AlnumsCollapse(s[1..]);
      } else {
        AlnumsConcat("-", Collapse(SkipRun(s[1..])));
        AlnumsCollapse(SkipRun(s[1..]));
        AlnumsSkipRun(s[1..]);
      }
    }
  }

  lemma AlnumsTrimDashes(s: string)
    ensures Alnums(TrimDashes(s)) == Alnums(s)
  {
    var a := if s != [] && s[0] == '-' then s[1..] else s;
    assert Alnums(a) == Alnums(s);
    if a != [] && a[|a| - 1] == '-' {
      assert a == a[..|a| - 1] + "-";
      AlnumsConcat(a[..|a| - 1], "-");
    }
  }

  /** A character with its accent taken off: the base of its decomposition. */
  function Base(c: char): char {
    if c in Decompositions then Decompositions[c].0 else c
  }

  function Bases(s: string): (r: string)
    ensures |r| == |s|
  {
    if s == [] then [] else [Base(s[0])] + Bases(s[1..])
  }

  lemma {:induction false} AlnumsNfd(s: string)
    ensures Alnums(Nfd(s)) == Alnums(Bases(s))
  {
    if s != [] {
      AlnumsConcat(Decompose(s[0]), Nfd(s[1..]));
      AlnumsConcat([Base(s[0])], Bases(s[1..]));
      if s[0] in Decompositions {
        assert Decompose(s[0]) == [Base(s[0])] + [Decompositions[s[0]].1];
        AlnumsConcat([Base(s[0])], [Decompositions[s[0]].1]);
      }
      AlnumsNfd(s[1..]);
    }
  }

  /** The letters and digits of the slug are those of the lower-cased name with accents
      taken off, in the same order: nothing else is reordered, added or lost. */
  lemma SlugifyKeepsAlnums(name: string)
    ensures Alnums(Slugify(name)) == Alnums(Bases(Lower(name)))
  {
    var folded := StripMarks(Nfd(Lower(name)));
    AlnumsTrimDashes(Collapse(folded));
    AlnumsCollapse(folded);
    AlnumsStripMarks(Nfd(Lower(name)));
    AlnumsNfd(Lower(name));
  }

  /** A slug that is not empty starts with a letter or a digit. */
  lemma SlugStartsWithAlnum(s: string)
    requires IsSlug(s) && s != ""
    ensures Alnums(s) != "" && Alnums(s)[0] == s[0]
  {
    assert IsSlugChar(s[0]);
  }

  /** A name gets the empty slug exactly when, lower-cased and with accents taken off, it has
      no letter `a-z` and no digit: a name of separators only, and only such a name. */
  lemma SeparatorsGiveEmptySlug(name: string)
    ensures Slugify(name) == "" <==> Alnums(Bases(Lower(name))) == ""
  {
    SlugifyKeepsAlnums(name);
    SlugifyMakesSlug(name);
    if Slugify(name) != "" {
      SlugStartsWithAlnum(Slugify(name));
    }
  }
}
