/** The two name-mangling helpers of the code generator, built from
    lower-casing and leftmost, non-overlapping substring replacement (the
    behaviour of Rust's `str::to_lowercase` on ASCII and `str::replace`). */
module NameMangling {

  function LowerChar(c: char): char
  {
    if 'A' <= c <= 'Z' then (c as int + 32) as char else c
  }

  predicate IsUpper(c: char) { 'A' <= c <= 'Z' }

  /** `str::to_lowercase`, on ASCII letters: the result has the text's
      length and no upper-case letter; every other character stays in its
      place, and each upper-case letter becomes the letter 32 code points
      above it. */
  function Lower(s: string): (r: string)
    ensures |r| == |s|
    ensures forall i :: 0 <= i < |r| ==> !IsUpper(r[i])
    ensures forall i :: 0 <= i < |s| && !IsUpper(s[i]) ==> r[i] == s[i]
    ensures forall i :: 0 <= i < |s| && IsUpper(s[i]) ==> r[i] as int == s[i] as int + 32
  {
    seq(|s|, i requires 0 <= i < |s| => LowerChar(s[i]))
  }

  /** Lower-casing lower-cased text changes nothing. */
  lemma LowerIdempotent(s: string)
    ensures Lower(Lower(s)) == Lower(s)
  {
    var once := Lower(s);
    assert forall i :: 0 <= i < |once| ==> Lower(once)[i] == once[i];
  }

  /** Whether `pat` occurs in `s` starting at index `i`. */
  predicate OccursAt(s: string, pat: string, i: int)
  {
    0 <= i && i + |pat| <= |s| && s[i..i + |pat|] == pat
  }

  /** `str::replace(pat, rep)`: scanning from the left, each occurrence of
      `pat` that does not overlap an earlier replaced one becomes `rep`. */
  function ReplaceAll(s: string, pat: string, rep: string): string
    requires |pat| > 0
    decreases |s|
  {
    if |s| < |pat| then s
    else if s[..|pat|] == pat then rep + ReplaceAll(s[|pat|..], pat, rep)
    else [s[0]] + ReplaceAll(s[1..], pat, rep)
  }

  /** Text in which `pat` does not occur is returned unchanged. */
  lemma {:induction false} ReplaceAbsentIsIdentity(s: string, pat: string, rep: string)
    requires |pat| > 0
    requires forall i :: 0 <= i <= |s| - |pat| ==> !OccursAt(s, pat, i)
    ensures ReplaceAll(s, pat, rep) == s
    decreases |s|
  {
    if |s| >= |pat| {
      assert !OccursAt(s, pat, 0);
      forall i | 0 <= i <= |s[1..]| - |pat| ensures !OccursAt(s[1..], pat, i) {
        assert !OccursAt(s, pat, i + 1);
        assert s[1..][i..i + |pat|] == s[i + 1..i + 1 + |pat|];
      }
      ReplaceAbsentIsIdentity(s[1..], pat, rep);
    }
  }

  /** Replacing one character by one character maps every position of the
      text independently. */
  lemma {:induction false} ReplaceCharIsCharMap(s: string, p: char, q: char)
    ensures |ReplaceAll(s, [p], [q])| == |s|
    ensures forall i :: 0 <= i < |s| ==>
              ReplaceAll(s, [p], [q])[i] == (if s[i] == p then q else s[i])
    decreases |s|
  {
    if |s| > 0 {
      ReplaceCharIsCharMap(s[1..], p, q);
      var r := ReplaceAll(s, [p], [q]);
      var tail := ReplaceAll(s[1..], [p], [q]);
      assert r == [if s[0] == p then q else s[0]] + tail;
      forall i | 0 <= i < |s| ensures r[i] == (if s[i] == p then q else s[i]) {
        if i > 0 {
          assert r[i] == tail[i - 1];
          assert s[1..][i - 1] == s[i];
        }
      }
    }
  }

  /** Replacement never introduces an upper-case letter that neither the
      text nor the replacement held. */
  lemma {:induction false} ReplaceKeepsLowerCase(s: string, pat: string, rep: string)
    requires |pat| > 0
    requires forall i :: 0 <= i < |s| ==> !IsUpper(s[i])
    requires forall i :: 0 <= i < |rep| ==> !IsUpper(rep[i])
    ensures forall i :: 0 <= i < |ReplaceAll(s, pat, rep)| ==> !IsUpper(ReplaceAll(s, pat, rep)[i])
    decreases |s|
  {
    if |s| >= |pat| {
      if s[..|pat|] == pat {
        ReplaceKeepsLowerCase(s[|pat|..], pat, rep);
        var tail := ReplaceAll(s[|pat|..], pat, rep);
        forall i | 0 <= i < |rep + tail| ensures !IsUpper((rep + tail)[i]) {
          if i >= |rep| { assert (rep + tail)[i] == tail[i - |rep|]; }
        }
      } else {
        ReplaceKeepsLowerCase(s[1..], pat, rep);
        var tail := ReplaceAll(s[1..], pat, rep);
        forall i | 0 <= i < |[s[0]] + tail| ensures !IsUpper(([s[0]] + tail)[i]) {
          if i >= 1 { assert ([s[0]] + tail)[i] == tail[i - 1]; }
        }
      }
    }
  }

  /** `rustify_name`: lower-case, then every space and every hyphen becomes
      an underscore. */
  function RustifyName(name: string): string
  {
    ReplaceAll(ReplaceAll(Lower(name), " ", "_"), "-", "_")
  }

  /** `rustify_name` maps each character on its own: spaces and hyphens to
      `_`, letters to lower case, everything else unchanged; so the result
      has the same length, no space, no hyphen and no upper-case letter. */
  lemma RustifyNameIsCharMap(name: string)
    ensures |RustifyName(name)| == |name|
    ensures forall i :: 0 <= i < |name| ==>
      RustifyName(name)[i] == (if name[i] == ' ' || name[i] == '-' then '_' else LowerChar(name[i]))
    ensures forall i :: 0 <= i < |name| ==>
      RustifyName(name)[i] != ' ' && RustifyName(name)[i] != '-' && !IsUpper(RustifyName(name)[i])
  {
    var lower := Lower(name);
    ReplaceCharIsCharMap(lower, ' ', '_');
    var spaced := ReplaceAll(lower, " ", "_");
    ReplaceCharIsCharMap(spaced, '-', '_');
  }

  /** A name already in mangled form is left as it is, so mangling twice
      is mangling once. */
  lemma RustifyNameIdempotent(name: string)
    ensures RustifyName(RustifyName(name)) == RustifyName(name)
  {
    var once := RustifyName(name);
    RustifyNameIsCharMap(name);
    RustifyNameIsCharMap(once);
  }

  /** `rustify_input`: lower-case, delete every "in", then turn every
      "price" into "price_". */
  function RustifyInput(name: string): string
  {
    ReplaceAll(ReplaceAll(Lower(name), "in", ""), "price", "price_")
  }

  /** The result of `rustify_input` holds no upper-case letter. */
  lemma RustifyInputIsLowerCase(name: string)
    ensures forall i :: 0 <= i < |RustifyInput(name)| ==> !IsUpper(RustifyInput(name)[i])
  {
    var lower := Lower(name);
    ReplaceKeepsLowerCase(lower, "in", "");
    ReplaceKeepsLowerCase(ReplaceAll(lower, "in", ""), "price", "price_");
  }

  /** Group names become module names: "Overlap Studies" is the module
      `overlap_studies`. */
  lemma GroupNameExample(name: string)
    requires name == "Overlap Studies"
    ensures RustifyName(name) == "overlap_studies"
  {
    var r := RustifyName(name);
    RustifyNameIsCharMap(name);
    forall i | 0 <= i < 15 ensures r[i] == "overlap_studies"[i] {
    }
  }

  /** Text without the pattern's first character is returned unchanged. */
  lemma {:induction false} ReplaceWithoutLeadCharIsIdentity(s: string, pat: string, rep: string)
    requires |pat| > 0
    requires pat[0] !in s
    ensures ReplaceAll(s, pat, rep) == s
    decreases |s|
  {
    if |s| >= |pat| {
      assert s[..|pat|][0] != pat[0];
      assert pat[0] !in s[1..] by {
        forall j | 0 <= j < |s[1..]| ensures s[1..][j] != pat[0] {
          assert s[1..][j] == s[j + 1];
        }
      }
      ReplaceWithoutLeadCharIsIdentity(s[1..], pat, rep);
    }
  }

  /** One scan step over a character that cannot start the pattern. */
  lemma ReplaceSkipsChar(s: string, pat: string, rep: string)
    requires |pat| > 0 && |s| > 0 && s[0] != pat[0]
    ensures ReplaceAll(s, pat, rep) == [s[0]] + ReplaceAll(s[1..], pat, rep)
  {
    if |s| >= |pat| {
      assert s[..|pat|][0] != pat[0];
    }
  }

  /** "pricehlc", the lower-cased "inPriceHLC" after its leading "in", holds
      no further "in". */
  lemma DeleteInFromPriceHlc(s: string)
    requires s == "pricehlc"
    ensures ReplaceAll(s, "in", "") == s
  {
    var u := s[2..];
    assert u == "icehlc";
    assert u[..2] != "in" by { assert u[..2][1] != "in"[1]; }
    ReplaceWithoutLeadCharIsIdentity(u[1..], "in", "");
    assert ReplaceAll(u, "in", "") == u;
    ReplaceSkipsChar(s[1..], "in", "");
    assert s[1..][1..] == u;
    ReplaceSkipsChar(s, "in", "");
  }

  /** In "outinteger" the "in" inside the word is deleted. */
  lemma DeleteInFromOutInteger(s: string)
    requires s == "outinteger"
    ensures ReplaceAll(s, "in", "") == "outteger"
  {
    var u := s[3..];
    assert u == "integer";
    DeleteLeadingIn(u);
    ReplaceSkipsChar(s[2..], "in", "");
    ReplaceSkipsChar(s[1..], "in", "");
    ReplaceSkipsChar(s, "in", "");
    assert s[1..][1..] == s[2..] && s[2..][1..] == u;
  }

  /** In "integer" the leading "in" is deleted and nothing else changes. */
  lemma DeleteLeadingIn(u: string)
    requires u == "integer"
    ensures ReplaceAll(u, "in", "") == "teger"
  {
    assert u[..2] == "in" && u[2..] == "teger";
    ReplaceWithoutLeadCharIsIdentity(u[2..], "in", "");
  }

  /** Input names become argument names: "inReal" is `real`. */
  lemma RealInputNameExample(name: string)
    requires name == "inReal"
    ensures RustifyInput(name) == "real"
  {
    assert Lower(name) == "inreal";
    assert ReplaceAll("inreal", "in", "") == "real";
    ReplaceWithoutLeadCharIsIdentity("real", "price", "price_");
  }

  /** A price input's name gains an underscore: "inPriceHLC" is
      `price_hlc`. */
  lemma PriceInputNameExample(name: string)
    requires name == "inPriceHLC"
    ensures RustifyInput(name) == "price_hlc"
  {
    assert Lower(name) == "inpricehlc";
    DeleteInFromInPriceHlc("inpricehlc");
    InsertUnderscoreAfterPrice("pricehlc");
  }

  lemma DeleteInFromInPriceHlc(s: string)
    requires s == "inpricehlc"
    ensures ReplaceAll(s, "in", "") == "pricehlc"
  {
    assert s[..2] == "in" && s[2..] == "pricehlc";
    DeleteInFromPriceHlc(s[2..]);
  }

  lemma InsertUnderscoreAfterPrice(s: string)
    requires s == "pricehlc"
    ensures ReplaceAll(s, "price", "price_") == "price_hlc"
  {
    assert s[..5] == "price" && s[5..] == "hlc";
    ReplaceWithoutLeadCharIsIdentity(s[5..], "price", "price_");
  }

  /** The deletion of "in" is not limited to a leading prefix: the output
      name "outInteger" becomes `outteger`. */
  lemma InnerInIsDeleted(name: string)
    requires name == "outInteger"
    ensures RustifyInput(name) == "outteger"
  {
    assert Lower(name) == "outinteger";
    DeleteInFromOutInteger("outinteger");
    ReplaceWithoutLeadCharIsIdentity("outteger", "price", "price_");
  }
}
