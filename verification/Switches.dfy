/** What the engine and provider switches accept, told without lowering or trimming. */
module Switches {
  import opened Types

  /** This name, each letter in either case.  No character outside A-Z is lowered to a letter of the names below. */
  predicate Spells(s: string, name: string) {
    && |s| == |name|
    && forall i | 0 <= i < |s| :: s[i] == name[i] || ('A' <= s[i] <= 'Z' && s[i] as int + 32 == name[i] as int)
  }

  predicate SmallLetters(name: string) { forall i | 0 <= i < |name| :: 'a' <= name[i] <= 'z' }

  lemma LowersExactly(s: string, name: string)
    requires SmallLetters(name)
    ensures ToLower(s) == name <==> Spells(s, name)
  {
    if Spells(s, name) {
      assert forall i | 0 <= i < |s| :: ToLower(s)[i] == name[i];
    }
    if ToLower(s) == name {
      forall i | 0 <= i < |s|
        ensures s[i] == name[i] || ('A' <= s[i] <= 'Z' && s[i] as int + 32 == name[i] as int)
      {
        assert ToLower(s)[i] == ToLowerChar(s[i]);
      }
    }
  }

  lemma EngineIsSupported(spec: Spec)
    ensures EngineSupported(spec) <==> Spells(spec.engine, "opentofu") || Spells(spec.engine, "terraform")
  {
    LowersExactly(spec.engine, "opentofu");
    LowersExactly(spec.engine, "terraform");
  }

  predicate Blank(s: string) { forall i | 0 <= i < |s| :: IsSpace(s[i]) }

  /** Neither end is white space. */
  predicate Tight(s: string) { s != "" ==> !IsSpace(s[0]) && !IsSpace(s[|s|-1]) }

  /** Trimming takes white space from both ends, and all of it. */
  lemma {:induction false} TrimTakesBlanks(s: string) returns (left: string, right: string)
    ensures s == left + TrimSpace(s) + right && Blank(left) && Blank(right) && Tight(TrimSpace(s))
  {
    hide IsSpace;
    left, right := "", "";
    if s != "" && IsSpace(s[0]) {
      left, right := TrimTakesBlanks(s[1..]);
      assert s == [s[0]] + s[1..];
      left := [s[0]] + left;
    } else if s != "" && IsSpace(s[|s|-1]) {
      left, right := TrimTakesBlanks(s[..|s|-1]);
      assert s == s[..|s|-1] + [s[|s|-1]];
      right := right + [s[|s|-1]];
    }
  }

  /** And nothing else can be what is left. */
  lemma {:induction false} TrimIsTheOnlyMiddle(left: string, mid: string, right: string)
    requires Blank(left) && Blank(right) && Tight(mid) && mid != ""
    ensures TrimSpace(left + mid + right) == mid
    decreases |left| + |right|
  {
    hide IsSpace;
    var s := left + mid + right;
    if left != "" {
      assert s[0] == left[0] && s[1..] == left[1..] + mid + right;
      TrimIsTheOnlyMiddle(left[1..], mid, right);
    } else if right != "" {
      assert s[0] == mid[0];
      assert s[|s|-1] == right[|right|-1] && s[..|s|-1] == left + mid + right[..|right|-1];
      TrimIsTheOnlyMiddle(left, mid, right[..|right|-1]);
    } else {
      assert s == mid;
    }
  }

  ghost predicate SpellsBetweenBlanks(s: string, name: string) {
    exists left, mid, right :: s == left + mid + right && Blank(left) && Blank(right) && Spells(mid, name)
  }

  lemma ScalrIsTight(s: string)
    requires Spells(s, "scalr")
    ensures Tight(s)
  {
  }

  /** A provider is supported exactly if none is named, or scalr, in either case and with white space around it. */
  lemma ProviderIsSupported(c: CloudBackend)
    ensures ProviderSupported(c) <==> c.provider == "" || SpellsBetweenBlanks(c.provider, "scalr")
  {
    hide IsSpace, TrimSpace;
    LowersExactly(TrimSpace(c.provider), "scalr");
    var l, r := TrimTakesBlanks(c.provider);
    if SpellsBetweenBlanks(c.provider, "scalr") {
      var left, mid, right :| c.provider == left + mid + right && Blank(left) && Blank(right) && Spells(mid, "scalr");
      ScalrIsTight(mid);
      TrimIsTheOnlyMiddle(left, mid, right);
    }
  }
}
