/**
 The human-readable part of default cache file names (`sanitize_cache_name`,
 src/auto.rs).
 */
module CacheNames {
  const MAX: nat := 80
  const FALLBACK: string := "scenario"

  predicate IsWordChar(c: char) {
    'a' <= c <= 'z' || 'A' <= c <= 'Z' || '0' <= c <= '9' || c == '_'
  }

  // ----- The name as a definition -----

  /** The maximal runs of word characters. */
  function Words(raw: string): (words: seq<string>)
    ensures raw != "" && IsWordChar(raw[|raw| - 1]) ==> words != []
  {
    if raw == "" then []
    else
      var init, c := raw[..|raw| - 1], raw[|raw| - 1];
      var words := Words(init);
      if !IsWordChar(c) then words
      else if init != "" && IsWordChar(init[|init| - 1]) then words[..|words| - 1] + [words[|words| - 1] + [c]]
      else words + [[c]]
  }

  function Joined(words: seq<string>): string {
    if words == [] then ""
    else if |words| == 1 then words[0]
    else Joined(words[..|words| - 1]) + "-" + words[|words| - 1]
  }

  function TrimDashes(s: string): (r: string)
    ensures |r| <= |s| && r == s[..|r|]
    ensures r != "" ==> r[|r| - 1] != '-'
    ensures forall k | |r| <= k < |s| :: s[k] == '-'
  {
    if s != "" && s[|s| - 1] == '-' then TrimDashes(s[..|s| - 1]) else s
  }

  function Take(s: string): string {
    if |s| <= MAX then s else s[..MAX]
  }

  /** Words joined by single dashes, cut at 80 characters, without a dash at the end. */
  function CacheName(raw: string): string {
    var name := TrimDashes(Take(Joined(Words(raw))));
    if name == "" then FALLBACK else name
  }

  // ----- Normal form -----

  /** Word characters and single inner dashes; `open` admits a dash at the end. */
  predicate Dashed(s: string, open: bool) {
    && (forall k | 0 <= k < |s| :: IsWordChar(s[k]) || s[k] == '-')
    && (s != "" ==> s[0] != '-')
    && (s != "" && !open ==> s[|s| - 1] != '-')
    && (forall k | 0 < k < |s| :: !(s[k - 1] == '-' && s[k] == '-'))
  }

  predicate IsCacheName(s: string) {
    0 < |s| <= MAX && Dashed(s, false)
  }

  predicate IsWord(w: string) {
    w != "" && forall k | 0 <= k < |w| :: IsWordChar(w[k])
  }

  predicate AreWords(words: seq<string>) {
    forall k | 0 <= k < |words| :: IsWord(words[k])
  }

  lemma WordGrows(w: string, c: char)
    requires IsWordChar(c) && (w == "" || IsWord(w))
    ensures IsWord(w + [c])
  {
  }

  lemma {:induction false} WordsAreWords(raw: string)
    ensures AreWords(Words(raw))
    decreases |raw|
  {
    hide IsWord;
    if raw != "" {
      var init, c := raw[..|raw| - 1], raw[|raw| - 1];
      WordsAreWords(init);
      var words := Words(init);
      if IsWordChar(c) {
        if init != "" && IsWordChar(init[|init| - 1]) {
          WordGrows(words[|words| - 1], c);
        } else {
          WordGrows("", c);
          assert "" + [c] == [c];
        }
      }
    }
  }

  /** A dash and a word after an inner end. */
  lemma DashedAppend(s: string, w: string)
    requires s != "" && Dashed(s, false) && IsWord(w)
    ensures Dashed(s + "-" + w, false)
  {
    var t := s + "-" + w;
    assert t[|s|] == '-' && t[|s| - 1] == s[|s| - 1] && t[|s| + 1] == w[0];
    forall k | 0 <= k < |t| ensures IsWordChar(t[k]) || t[k] == '-' {
      assert t[k] == if k < |s| then s[k] else if k == |s| then '-' else w[k - |s| - 1];
    }
    forall k | 0 < k < |t| ensures !(t[k - 1] == '-' && t[k] == '-') {
      if k < |s| {
        assert t[k - 1] == s[k - 1] && t[k] == s[k];
      } else if k > |s| {
        assert t[k] == w[k - |s| - 1];
      }
    }
  }

  lemma {:induction false} JoinedIsDashed(words: seq<string>)
    requires AreWords(words)
    ensures Dashed(Joined(words), false)
    ensures words != [] ==> Joined(words) != ""
    decreases |words|
  {
    if |words| == 1 {
      assert IsWord(words[0]);
    } else if |words| > 1 {
      hide IsWord, Dashed;
      JoinedIsDashed(words[..|words| - 1]);
      DashedAppend(Joined(words[..|words| - 1]), words[|words| - 1]);
    }
  }

  /** Growing the last word grows the joined string by the same character. */
  lemma JoinedGrows(words: seq<string>, c: char)
    requires words != []
    ensures Joined(words[..|words| - 1] + [words[|words| - 1] + [c]]) == Joined(words) + [c]
  {
    var grown := words[..|words| - 1] + [words[|words| - 1] + [c]];
    assert grown[..|grown| - 1] == words[..|words| - 1];
  }

  lemma JoinedAppends(words: seq<string>, c: char)
    ensures Joined(words + [[c]]) == if words == [] then [c] else Joined(words) + "-" + [c]
  {
    assert (words + [[c]])[..|words|] == words;
  }

  lemma {:induction false} DashedIsFixed(s: string)
    requires Dashed(s, true)
    ensures Joined(Words(s)) == TrimDashes(s)
    decreases |s|
  {
    hide Words, Joined, TrimDashes;
    TrimsOne(s);
    if s == "" {
      EmptyName();
    } else {
      var init, c := s[..|s| - 1], s[|s| - 1];
      DashedIsFixed(init);
      TrimsOne(init);
      JoinedStep(s, |init|);
      assert s[..|s|] == s && init + [c] == s;
    }
  }

  /** There is at most one dash to trim. */
  lemma TrimsOne(s: string)
    requires Dashed(s, true)
    ensures TrimDashes(s) == if s != "" && s[|s| - 1] == '-' then s[..|s| - 1] else s
    ensures TrimDashes(s) + "-" == s || TrimDashes(s) == s
  {
    if s != "" && s[|s| - 1] == '-' {
      assert TrimDashes(s[..|s| - 1]) == s[..|s| - 1];
    }
  }

  lemma TakenIsDashed(s: string)
    requires Dashed(s, false)
    ensures Dashed(Take(s), true) && Dashed(TrimDashes(Take(s)), false)
  {
  }

  /** Every cache name is in normal form, whatever the raw name. */
  lemma CacheNameIsNormal(raw: string)
    ensures IsCacheName(CacheName(raw))
  {
    WordsAreWords(raw);
    JoinedIsDashed(Words(raw));
    TakenIsDashed(Joined(Words(raw)));
  }

  /** The normal forms are exactly the names that stay as they are. */
  lemma FixedIffNormal(s: string)
    ensures CacheName(s) == s <==> IsCacheName(s)
  {
    CacheNameIsNormal(s);
    if IsCacheName(s) {
      DashedIsFixed(s);
    }
  }

  lemma CacheNameIdempotent(raw: string)
    ensures CacheName(CacheName(raw)) == CacheName(raw)
  {
    CacheNameIsNormal(raw);
    FixedIffNormal(CacheName(raw));
  }

  // ----- What a name keeps of the raw text -----

  /** A word character, and whether other characters separate it from the one before. */
  datatype Mark = Mark(c: char, apart: bool)

  /** The word characters of a text in order; how they are separated does not matter. */
  function Marks(s: string): seq<Mark> {
    if s == "" then []
    else
      var init, c := s[..|s| - 1], s[|s| - 1];
      if !IsWordChar(c) then Marks(init)
      else Marks(init) + [Mark(c, Marks(init) != [] && !IsWordChar(init[|init| - 1]))]
  }

  lemma MarksGrow(s: string, c: char)
    ensures Marks(s + [c])
      == if !IsWordChar(c) then Marks(s)
         else Marks(s) + [Mark(c, Marks(s) != [] && !IsWordChar(s[|s| - 1]))]
  {
    hide IsWordChar;
    var t := s + [c];
    assert t[..|t| - 1] == s && t[|t| - 1] == c;
  }

  /** Joining the words keeps every word character and every separation. */
  lemma {:induction false} JoinedKeepsMarks(raw: string, i: nat)
    requires i <= |raw|
    ensures var joined := Joined(Words(raw[..i]));
      && Marks(joined) == Marks(raw[..i])
      && (joined == "" <==> Marks(raw[..i]) == [])
      && (joined != "" ==> IsWordChar(joined[|joined| - 1]))
  {
    hide Words, Joined, IsWordChar, Marks;
    if i == 0 {
      EmptyName();
      assert raw[..0] == "";
      EmptyMarks();
    } else {
      JoinedKeepsMarks(raw, i - 1);
      JoinedStep(raw, i - 1);
      var before, c := Joined(Words(raw[..i - 1])), raw[i - 1];
      assert raw[..i] == raw[..i - 1] + [c];
      assert i > 1 ==> raw[..i - 1][|raw[..i - 1]| - 1] == raw[i - 2];
      assert (before + "-")[|before|] == '-';
      assert (before + [c])[|before|] == c && (before + "-" + [c])[|before| + 1] == c;
      EmptyMarks();
      assert i == 1 ==> raw[..i - 1] == "";
      MarksGrow(raw[..i - 1], c);
      MarksGrow(before, c);
      MarksGrow(before, '-');
      MarksGrow(before + "-", c);
      DashIsNoWord();
    }
  }

  lemma EmptyMarks()
    ensures Marks("") == []
  {
  }

  lemma DashIsNoWord()
    ensures !IsWordChar('-')
  {
  }

  lemma {:induction false} PrefixMarks(s: string, k: nat)
    requires k <= |s|
    ensures Marks(s[..k]) <= Marks(s)
    decreases |s| - k
  {
    if k < |s| {
      PrefixMarks(s, k + 1);
      assert s[..k + 1] == s[..k] + [s[k]];
      MarksGrow(s[..k], s[k]);
    } else {
      assert s[..k] == s;
    }
  }

  lemma {:induction false} TrimKeepsMarks(s: string)
    ensures Marks(TrimDashes(s)) == Marks(s)
  {
    if s != "" && s[|s| - 1] == '-' {
      TrimKeepsMarks(s[..|s| - 1]);
    }
  }

  lemma {:induction false} JoinedFits(s: string)
    requires |s| <= MAX
    ensures Take(s) == s
  {
  }

  /**
   The name spells out the raw text: its word characters are the first ones of the raw
   text, separated where those are; all of them, unless the name had to be cut; and
   without any the name is the fallback.
   */
  lemma CacheNameSpells(raw: string)
    ensures var name := CacheName(raw);
      && (Marks(raw) == [] ==> name == FALLBACK)
      && (Marks(raw) != [] ==> Marks(name) <= Marks(raw) && (Marks(name) == Marks(raw) || |name| >= MAX - 1))
  {
    hide Words, Joined, Marks, TrimDashes;
    assert raw[..|raw|] == raw;
    JoinedKeepsMarks(raw, |raw|);
    var joined := Joined(Words(raw));
    WordsAreWords(raw);
    JoinedIsDashed(Words(raw));
    TakenIsDashed(joined);
    TrimsOne(Take(joined));
    TrimKeepsMarks(Take(joined));
    if |joined| <= MAX {
      JoinedFits(joined);
    } else {
      PrefixMarks(joined, MAX);
    }
    if joined == "" {
      EmptyName();
    } else {
      TakeStarts(joined);
    }
  }

  lemma TakeStarts(s: string)
    requires s != "" && Dashed(s, false)
    ensures TrimDashes(Take(s)) != ""
  {
    TakenIsDashed(s);
    TrimsOne(Take(s));
  }

  // ----- The loop -----

  lemma JoinedStep(raw: string, i: nat)
    requires i < |raw|
    ensures var before, after := Joined(Words(raw[..i])), Joined(Words(raw[..i + 1]));
      after == if !IsWordChar(raw[i]) then before
               else if before == "" || (i > 0 && IsWordChar(raw[i - 1])) then before + [raw[i]]
               else before + "-" + [raw[i]]
  {
    assert raw[..i + 1][..i] == raw[..i];
    var words := Words(raw[..i]);
    WordsAreWords(raw[..i]);
    JoinedIsDashed(words);
    if IsWordChar(raw[i]) {
      if i > 0 && IsWordChar(raw[i - 1]) {
        JoinedGrows(words, raw[i]);
      } else {
        JoinedAppends(words, raw[i]);
      }
    }
  }

  /** Once 80 characters are there, further input does not matter. */
  lemma {:induction false} TakeSettles(raw: string, i: nat)
    requires i <= |raw| && |Joined(Words(raw[..i]))| >= MAX
    ensures |Joined(Words(raw))| >= MAX
    ensures Take(Joined(Words(raw))) == Take(Joined(Words(raw[..i])))
    decreases |raw| - i
  {
    if i < |raw| {
      JoinedStep(raw, i);
      TakeSettles(raw, i + 1);
    } else {
      assert raw[..i] == raw;
    }
  }

  lemma EmptyName()
    ensures Joined(Words("")) == "" == Take("")
  {
  }

  /** One character of the loop: what it appends to the part already taken, or that 80 are there. */
  lemma TakeStep(before: string, ch: char, pending: bool)
    ensures var sanitized := Take(before);
      var after := if before == "" || !pending then before + [ch] else before + "-" + [ch];
      var separated := if pending && sanitized != "" && |sanitized| < MAX then sanitized + "-" else sanitized;
      && |separated| <= MAX
      && (|separated| == MAX ==> |after| >= MAX && Take(after) == separated)
      && (|separated| < MAX ==> Take(after) == separated + [ch])
  {
  }

  /** `sanitize_cache_name`. */
  method SanitizeCacheName(raw: string) returns (name: string)
    ensures name == CacheName(raw)
  {
    hide Words, Joined, Take, IsWordChar;
    EmptyName();
    var sanitized := "";
    var separatorPending := false;
    var i := 0;
    assert raw[..0] == "";
    while i < |raw|
      invariant i <= |raw|
      invariant sanitized == Take(Joined(Words(raw[..i])))
      invariant separatorPending <==> i > 0 && !IsWordChar(raw[i - 1])
    {
      var ch := raw[i];
      JoinedStep(raw, i);
      if IsWordChar(ch) {
        TakeStep(Joined(Words(raw[..i])), ch, separatorPending);
        if separatorPending && sanitized != "" && |sanitized| < MAX {
          sanitized := sanitized + "-";
        }
        separatorPending := false;
        if |sanitized| == MAX {
          TakeSettles(raw, i + 1);
          break;
        }
        sanitized := sanitized + [ch];
      } else {
        separatorPending := true;
      }
      i := i + 1;
    }
    assert i == |raw| ==> raw[..i] == raw;
    assert sanitized == Take(Joined(Words(raw)));
    ghost var taken := sanitized;
    while sanitized != "" && sanitized[|sanitized| - 1] == '-'
      invariant TrimDashes(sanitized) == TrimDashes(taken)
      decreases |sanitized|
    {
      sanitized := sanitized[..|sanitized| - 1];
    }
    return if sanitized == "" then FALLBACK else sanitized;
  }
}
