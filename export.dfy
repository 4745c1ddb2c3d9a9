/**
 * The two pure helpers of dxf.py's export path: the sanitised stem of
 * get_filename (lower-case, whitespace runs to "_", drop everything outside
 * [a-z0-9._-], squeeze "_" runs) and the paper size save_pdf selects from
 * the requested size and orientation.
 */
module Export {

  // ---------------------------------------------------------------------
  // Case mapping
  // ---------------------------------------------------------------------

  const KelvinSign: char := '\U{212A}'
  const CapitalIWithDot: char := '\U{0130}'
  const CombiningDotAbove: char := '\U{0307}'

  /**
   * str.lower() on every character whose lower-case form can contain one of
   * [a-z0-9._-]: the ASCII capitals, the Kelvin sign (to "k") and capital I
   * with dot above (to "i" and a combining dot). Every other character is kept
   * as it is; its real lower-case form is, like itself, never whitespace and
   * never allowed in a stem, so the stem is the same either way.
   */
  function Lower(s: string): (r: string)
    ensures forall i :: 0 <= i < |r| ==> !('A' <= r[i] <= 'Z')
  {
    if s == [] then []
    else
      var c := s[0];
      var head := if 'A' <= c <= 'Z' then [(c as int + 32) as char]
                  else if c == KelvinSign then "k"
                  else if c == CapitalIWithDot then ['i', CombiningDotAbove]
                  else [c];
      head + Lower(s[1..])
  }

  /** str.upper() on ASCII letters; every other character is kept. */
  function Upper(s: string): (r: string)
    ensures |r| == |s|
    ensures forall i :: 0 <= i < |s| ==> !('a' <= r[i] <= 'z')
  {
    if s == [] then []
    else
      var c := s[0];
      [if 'a' <= c <= 'z' then (c as int - 32) as char else c] + Upper(s[1..])
  }

  // ---------------------------------------------------------------------
  // The sanitiser
  // ---------------------------------------------------------------------

  /** What `\s` matches in a str pattern: the characters for which str.isspace() holds. */
  predicate IsSpace(c: char)
  {
    || '\t' <= c <= '\r'
    || '\U{1C}' <= c <= '\U{1F}'
    || c == ' ' || c == '\U{85}' || c == '\U{A0}' || c == '\U{1680}'
    || '\U{2000}' <= c <= '\U{200A}'
    || c == '\U{2028}' || c == '\U{2029}' || c == '\U{202F}' || c == '\U{205F}' || c == '\U{3000}'
  }

  predicate IsUnderscore(c: char) { c == '_' }

  /** The characters `[a-z0-9._-]`. */
  predicate IsAllowed(c: char)
  {
    'a' <= c <= 'z' || '0' <= c <= '9' || c == '.' || c == '_' || c == '-'
  }

  /**
   * re.sub(run+, sub): every maximal run of characters satisfying `run`
   * becomes one `sub`. `inRun` says that the character before `s` was part of
   * a run already replaced.
   */
  function Squeeze(s: string, run: char -> bool, sub: char, inRun: bool): (r: string)
    ensures forall i :: 0 <= i < |r| ==> r[i] == sub || r[i] in s
  {
    if s == [] then []
    else if run(s[0]) then
      (if inRun then [] else [sub]) + Squeeze(s[1..], run, sub, true)
    else [s[0]] + Squeeze(s[1..], run, sub, false)
  }

  /** re.sub(r"[^a-z0-9._-]", ""). */
  function KeepAllowed(s: string): (r: string)
    ensures forall i :: 0 <= i < |r| ==> IsAllowed(r[i]) && r[i] in s
  {
    if s == [] then [] else (if IsAllowed(s[0]) then [s[0]] else []) + KeepAllowed(s[1..])
  }

  /** The sanitising part of get_filename: only [a-z0-9._-], never two underscores in a row. */
  function SanitisedStem(planName: string): (r: string)
    ensures forall i :: 0 <= i < |r| ==> IsAllowed(r[i])
    ensures NoDoubleUnderscore(r)
  {
    var kept := KeepAllowed(Squeeze(Lower(planName), IsSpace, '_', false));
    SqueezeSeparates(kept, IsUnderscore, '_', false);
    UnjoinedUnderscores(Squeeze(kept, IsUnderscore, '_', false));
    Squeeze(kept, IsUnderscore, '_', false)
  }

  /**
   * get_filename: the stem, then the timestamp and the six-digit uuid suffix,
   * which come from the clock and a random source and are parameters here.
   */
  function Filename(planName: string, timestamp: string, suffix: string): (r: string)
    ensures |SanitisedStem(planName)| <= |r|
    ensures r[..|SanitisedStem(planName)|] == SanitisedStem(planName)
    ensures forall i :: 0 <= i < |SanitisedStem(planName)| ==> IsAllowed(r[i])
    ensures r[|SanitisedStem(planName)|..] == "_" + timestamp + "_" + suffix
  {
    SanitisedStem(planName) + "_" + timestamp + "_" + suffix
  }

  predicate NoDoubleUnderscore(s: string)
  {
    forall i :: 0 <= i < |s| - 1 ==> !(s[i] == '_' && s[i + 1] == '_')
  }

  /** Positions i and i + 1 of s both hold run characters. */
  predicate Joined(s: string, run: char -> bool, i: int)
  {
    0 <= i < |s| - 1 && run(s[i]) && run(s[i + 1])
  }

  /** Squeeze never leaves two run characters side by side, nor one right after a replaced run. */
  lemma {:induction false} SqueezeSeparates(s: string, run: char -> bool, sub: char, inRun: bool)
    requires run(sub)
    ensures inRun && Squeeze(s, run, sub, inRun) != [] ==> !run(Squeeze(s, run, sub, inRun)[0])
    ensures forall i :: !Joined(Squeeze(s, run, sub, inRun), run, i)
  {
    if s != [] {
      var rest := Squeeze(s[1..], run, sub, run(s[0]));
      SqueezeSeparates(s[1..], run, sub, run(s[0]));
      var r := Squeeze(s, run, sub, inRun);
      if run(s[0]) && inRun {
        assert r == rest;
      } else {
        var c := if run(s[0]) then sub else s[0];
        assert r == [c] + rest;
        forall i ensures !Joined(r, run, i) {
          if 0 < i < |r| - 1 {
            assert r[i] == rest[i - 1] && r[i + 1] == rest[i];
            assert !Joined(rest, run, i - 1);
          } else if i == 0 && |r| > 1 {
            assert r[0] == c && r[1] == rest[0];
          }
        }
      }
    }
  }

  /** A string already free of runs is its own squeeze. */
  lemma {:induction false} SqueezeKeeps(s: string, run: char -> bool, sub: char, inRun: bool)
    requires forall i :: 0 <= i < |s| ==> run(s[i]) ==> s[i] == sub
    requires forall i :: 0 <= i < |s| - 1 ==> !(run(s[i]) && run(s[i + 1]))
    requires inRun && s != [] ==> !run(s[0])
    ensures Squeeze(s, run, sub, inRun) == s
  {
    if s != [] {
      SqueezeKeeps(s[1..], run, sub, run(s[0]));
    }
  }

  lemma {:induction false} KeepAllowedKeeps(s: string)
    requires forall i :: 0 <= i < |s| ==> IsAllowed(s[i])
    ensures KeepAllowed(s) == s
  {
    if s != [] {
      KeepAllowedKeeps(s[1..]);
    }
  }

  lemma {:induction false} LowerKeeps(s: string)
    requires forall i :: 0 <= i < |s| ==> IsAllowed(s[i])
    ensures Lower(s) == s
  {
    if s != [] {
      LowerKeeps(s[1..]);
    }
  }

  lemma UnjoinedUnderscores(r: string)
    requires forall i :: !Joined(r, IsUnderscore, i)
    ensures NoDoubleUnderscore(r)
  {
    forall i | 0 <= i < |r| - 1 ensures !(r[i] == '_' && r[i + 1] == '_') {
      assert !Joined(r, IsUnderscore, i);
    }
  }

  /** Sanitising a sanitised stem changes nothing. */
  lemma StemIdempotent(planName: string)
    ensures SanitisedStem(SanitisedStem(planName)) == SanitisedStem(planName)
  {
    var t := SanitisedStem(planName);
    LowerKeeps(t);
    SqueezeKeeps(t, IsSpace, '_', false);
    KeepAllowedKeeps(t);
    SqueezeKeeps(t, IsUnderscore, '_', false);
  }

  // ---------------------------------------------------------------------
  // Paper size and orientation (save_pdf)
  // ---------------------------------------------------------------------

  /** The paper_sizes table, in millimetres (width, height). */
  const PaperSizes: map<string, (int, int)> :=
    map["A4" := (210, 297), "A3" := (297, 420), "A5" := (148, 210),
        "Letter" := (216, 279), "Legal" := (216, 356)]

  const DefaultPaper: (int, int) := (210, 297)

  /**
   * paper_sizes.get(paper_size.upper(), (210, 297)). The upper-cased key
   * never equals the mixed-case "Letter" or "Legal", so only the three A
   * sizes and the A4 default are ever used.
   */
  function PaperSizeOf(paperSize: string): (r: (int, int))
    ensures r == (210, 297) || r == (297, 420) || r == (148, 210)
    ensures r == if paperSize in {"A3", "a3"} then (297, 420)
                 else if paperSize in {"A5", "a5"} then (148, 210)
                 else (210, 297)
  {
    var key := Upper(paperSize);
    UpperKey(paperSize, "A3");
    UpperKey(paperSize, "A5");
    UpperKey(paperSize, "A4");
    UpperNeverMixed(paperSize);
    if key in PaperSizes then PaperSizes[key] else DefaultPaper
  }

  lemma UpperNeverMixed(s: string)
    ensures Upper(s) != "Letter" && Upper(s) != "Legal"
  {
    if |s| >= 2 {
      assert !('a' <= Upper(s)[1] <= 'z');
    }
  }

  /**
   * The page save_pdf lays out: width and height swapped for "landscape" in
   * any case. Every selectable size is portrait-shaped, so the page is wider
   * than high exactly for a landscape request.
   */
  function PageSize(paperSize: string, orientation: string): (r: (int, int))
    ensures r == PaperSizeOf(paperSize) || r == (PaperSizeOf(paperSize).1, PaperSizeOf(paperSize).0)
    ensures Lower(orientation) == "landscape" <==> r.0 > r.1
  {
    var size := PaperSizeOf(paperSize);
    if Lower(orientation) == "landscape" then (size.1, size.0) else size
  }

  /** The key matches "A3" exactly for "a3" and "A3"; likewise the other A sizes. */
  lemma UpperKey(paperSize: string, key: string)
    requires key == "A4" || key == "A3" || key == "A5"
    ensures Upper(paperSize) == key <==> paperSize == key || paperSize == [key[0] + 32 as char, key[1]]
  {
    if Upper(paperSize) == key {
      assert |paperSize| == 2;
      assert Upper(paperSize[1..]) == [key[1]];
    }
    if paperSize == key || paperSize == [key[0] + 32 as char, key[1]] {
      assert paperSize[1..] == [key[1]];
      assert Upper(paperSize[1..]) == [key[1]];
    }
  }
}
