/** The names of a TfRun's Jobs: how they are printed, read back, and when they are valid labels. */
module Names {
  import opened Types
  import opened JobInvariants

  /* ---------- decimal numbers ---------- */

  predicate IsDigit(c: char) { '0' <= c <= '9' }

  predicate AllDigits(s: string) { forall i | 0 <= i < |s| :: IsDigit(s[i]) }

  function Decimal(n: nat): (s: string)
    ensures s != "" && AllDigits(s)
  {
    var digit := ('0' as int + n % 10) as char;
    if n < 10 then [digit] else Decimal(n / 10) + [digit]
  }

  function Value(s: string): nat
    requires AllDigits(s)
  {
    if s == "" then 0 else Value(s[..|s|-1]) * 10 + (s[|s|-1] as int - '0' as int)
  }

  /** Digits without a needless zero in front. */
  predicate Canonical(s: string) { s != "" && AllDigits(s) && (s[0] == '0' ==> |s| == 1) }

  lemma {:induction false} ValueOfDecimal(n: nat)
    ensures Value(Decimal(n)) == n
    ensures Canonical(Decimal(n)) && (n > 0 ==> Decimal(n)[0] != '0')
  {
    var digit := ('0' as int + n % 10) as char;
    if n < 10 {
      assert [digit][..0] == "";
    } else {
      ValueOfDecimal(n / 10);
      assert Decimal(n)[..|Decimal(n)|-1] == Decimal(n / 10);
    }
  }

  lemma {:induction false} DecimalOfValue(s: string)
    requires Canonical(s)
    ensures Decimal(Value(s)) == s && (s[0] != '0' ==> Value(s) > 0)
  {
    var init := s[..|s|-1];
    assert s == init + [s[|s|-1]];
    var digit := s[|s|-1] as int - '0' as int;
    if init != "" {
      DecimalOfValue(init);
      assert (Value(init) * 10 + digit) / 10 == Value(init);
    }
  }

  /* ---------- printing ---------- */

  const MAX_LENGTH := 63

  function BuildRunID(generation: nat, specHash: string): string
    requires 8 <= |specHash|
  {
    "gen-" + Decimal(generation) + "-" + specHash[..8]
  }

  function TrimHyphens(s: string): (r: string)
    ensures r <= s && (r != "" ==> r[|r|-1] != '-')
    ensures forall i | |r| <= i < |s| :: s[i] == '-'
  {
    if s != "" && s[|s|-1] == '-' then TrimHyphens(s[..|s|-1]) else s
  }

  /** Cut to the length of a label, and to a last character that is not a hyphen. */
  function Cut(s: string): (r: string)
    ensures r <= s && |r| <= MAX_LENGTH && (r != "" ==> r[|r|-1] != '-')
    ensures forall i | |r| <= i < |s| && i < MAX_LENGTH :: s[i] == '-'
  {
    TrimHyphens(if |s| > MAX_LENGTH then s[..MAX_LENGTH] else s)
  }

  function BuildJobName(name: string, runID: string): string { Cut(ToLower("apply-" + name + "-" + runID)) }

  function DestroyName(name: string): string { ToLower(name + "-destroy") }

  predicate Lowercase(s: string) { forall i | 0 <= i < |s| :: !('A' <= s[i] <= 'Z') }

  predicate IsLetter(c: char) { 'a' <= c <= 'z' }

  predicate InLabel(c: char) { IsLetter(c) || IsDigit(c) || c == '-' }

  predicate LabelChars(s: string) { forall i | 0 <= i < |s| :: InLabel(s[i]) }

  predicate AllHex(s: string) { forall i | 0 <= i < |s| :: IsHex(s[i]) }

  lemma ToLowerKeeps(s: string)
    requires Lowercase(s)
    ensures ToLower(s) == s
  {
  }

  /* ---------- reading a name back, from the right ---------- */

  datatype JobId = JobId(name: string, generation: nat, short: string)

  function Head(name: string): string { "apply-" + name + "-gen-" }

  function Print(id: JobId): string { Head(id.name) + Decimal(id.generation) + "-" + id.short }

  /** Where the digits at the end begin. */
  function DigitsStart(s: string): (k: nat)
    ensures k <= |s| && AllDigits(s[k..]) && (k > 0 ==> !IsDigit(s[k-1]))
  {
    if s == "" || !IsDigit(s[|s|-1]) then |s|
    else
      var k := DigitsStart(s[..|s|-1]);
      assert s[k..] == s[..|s|-1][k..] + [s[|s|-1]];
      k
  }

  predicate IsHead(s: string) { 11 <= |s| && s[..6] == "apply-" && s[|s|-5..] == "-gen-" }

  function Parse(s: string): Option<JobId> {
    if |s| < 9 || !AllHex(s[|s|-8..]) || s[|s|-9] != '-' then None
    else
      var body := s[..|s|-9];
      var k := DigitsStart(body);
      if Canonical(body[k..]) && IsHead(body[..k]) then
        Some(JobId(body[6..k-5], Value(body[k..]), s[|s|-8..]))
      else None
  }

  lemma DigitsStartAfter(head: string, digits: string)
    requires head != "" && !IsDigit(head[|head|-1]) && AllDigits(digits)
    ensures DigitsStart(head + digits) == |head|
  {
    var s := head + digits;
    assert forall i | |head| <= i < |s| :: IsDigit(s[i]);
    assert s[|head|-1] == head[|head|-1];
    DigitsStartUnique(s, |head|);
  }

  lemma {:induction false} DigitsStartUnique(s: string, k: nat)
    requires 0 < k <= |s| && !IsDigit(s[k-1]) && forall i | k <= i < |s| :: IsDigit(s[i])
    ensures DigitsStart(s) == k
  {
    if k < |s| {
      DigitsStartUnique(s[..|s|-1], k);
    }
  }

  lemma HeadIsHead(name: string)
    ensures var h := Head(name); IsHead(h) && h[6..|h|-5] == name && !IsDigit(h[|h|-1])
  {
  }

  /** Whatever the TfRun is called, even with "-gen-" inside its name. */
  lemma ParseOfPrint(id: JobId)
    requires |id.short| == 8 && AllHex(id.short)
    ensures Parse(Print(id)) == Some(id)
  {
    var body := Head(id.name) + Decimal(id.generation);
    var s := Print(id);
    assert s == body + "-" + id.short;
    assert s[|s|-8..] == id.short && s[..|s|-9] == body && s[|s|-9] == '-';
    HeadIsHead(id.name);
    ValueOfDecimal(id.generation);
    ParseParts(Head(id.name), Decimal(id.generation), s);
  }

  lemma ParseParts(head: string, digits: string, s: string)
    requires IsHead(head) && !IsDigit(head[|head|-1]) && Canonical(digits)
    requires 9 <= |s| && AllHex(s[|s|-8..]) && s[|s|-9] == '-' && s[..|s|-9] == head + digits
    ensures Parse(s) == Some(JobId(head[6..|head|-5], Value(digits), s[|s|-8..]))
  {
    var body := s[..|s|-9];
    DigitsStartAfter(head, digits);
    assert body[|head|..] == digits && body[..|head|] == head;
    assert body[6..|head|-5] == head[6..|head|-5];
  }

  lemma PrintOfParse(s: string)
    requires Parse(s).Some?
    ensures Print(Parse(s).value) == s
  {
    var body := s[..|s|-9];
    var k := DigitsStart(body);
    DecimalOfValue(body[k..]);
    var head := body[..k];
    assert head == head[..6] + head[6..k-5] + head[k-5..];
    assert head[6..k-5] == body[6..k-5];
    assert body == head + body[k..];
    assert s == body + [s[|s|-9]] + s[|s|-8..];
  }

  /* ---------- distinct names ---------- */

  lemma LowercaseJoined(s: string, t: string)
    requires Lowercase(s) && Lowercase(t)
    ensures Lowercase(s + t)
  {
  }

  lemma RunIdChars(generation: nat, hash: Hash)
    ensures Lowercase(BuildRunID(generation, hash)) && LabelChars(BuildRunID(generation, hash))
    ensures var s := BuildRunID(generation, hash); s[|s|-1] != '-'
  {
    var s := BuildRunID(generation, hash);
    assert s[|s|-1] == hash[7] && hash[7] in hash;
    forall i | 0 <= i < |s|
      ensures InLabel(s[i])
    {
      if |s| - 8 <= i {
        assert s[i] == hash[i - (|s| - 8)];
        assert hash[i - (|s| - 8)] in hash;
      } else if 4 <= i < |s| - 9 {
        assert s[i] == Decimal(generation)[i - 4];
      }
    }
  }

  /** The name of the Job is not cut: 20 characters go to the frame and the hash. */
  predicate Fits(name: string, generation: nat) { |name| + |Decimal(generation)| <= MAX_LENGTH - 20 }

  lemma JobNameIsPrinted(name: string, generation: nat, hash: Hash)
    requires Lowercase(name) && Fits(name, generation)
    ensures BuildJobName(name, BuildRunID(generation, hash)) == Print(JobId(name, generation, hash[..8]))
  {
    var head, runId := "apply-" + name + "-", BuildRunID(generation, hash);
    RunIdChars(generation, hash);
    WholeName(head, runId);
    PrintedParts(name, Decimal(generation), hash[..8]);
  }

  lemma PrintedParts(name: string, digits: string, short: string)
    ensures "apply-" + name + "-" + ("gen-" + digits + "-" + short) == Head(name) + digits + "-" + short
  {
    assert "-" + "gen-" == "-gen-";
    assert "apply-" + name + "-" + "gen-" == Head(name);
  }

  lemma WholeName(head: string, tail: string)
    requires Lowercase(head) && Lowercase(tail) && |head| + |tail| <= 63 && tail != "" && tail[|tail|-1] != '-'
    ensures Cut(ToLower(head + tail)) == head + tail
  {
    LowercaseJoined(head, tail);
    ToLowerKeeps(head + tail);
  }

  /** Across TfRuns, generations and hashes: a name that was not cut tells all three. */
  lemma JobNamesAreDistinct(name: string, name': string, g: nat, g': nat, h: Hash, h': Hash)
    requires Lowercase(name) && Lowercase(name') && Fits(name, g) && Fits(name', g')
    requires BuildJobName(name, BuildRunID(g, h)) == BuildJobName(name', BuildRunID(g', h'))
    ensures name == name' && g == g' && h[..8] == h'[..8]
  {
    JobNameIsPrinted(name, g, h);
    JobNameIsPrinted(name', g', h');
    ParseOfPrint(JobId(name, g, h[..8]));
    ParseOfPrint(JobId(name', g', h'[..8]));
  }

  /** No apply Job that was not cut is named like the destroy Job of any TfRun. */
  lemma NeverAnyDestroyName(name: string, g: nat, h: Hash, other: string)
    requires Lowercase(name) && Fits(name, g)
    ensures BuildJobName(name, BuildRunID(g, h)) != DestroyName(other)
  {
    JobNameIsPrinted(name, g, h);
    ParseOfPrint(JobId(name, g, h[..8]));
    var d := DestroyName(other);
    assert d[|d|-8] == ToLowerChar((other + "-destroy")[|other|]) == '-';
    assert d[|d|-8] in d[|d|-8..];
  }

  /** Not even one that was cut is named like the destroy Job of its own TfRun. */
  lemma NeverItsDestroyName(name: string, g: nat, h: string)
    requires 8 <= |h|
    ensures BuildJobName(name, BuildRunID(g, h)) != DestroyName(name)
  {
    var full := "apply-" + name + "-" + BuildRunID(g, h);
    var job, n := BuildJobName(name, BuildRunID(g, h)), |name| + 7;
    assert full[n] == 'g';
    assert (name + "-destroy")[n] == 'y';
    if |job| == n + 1 {
      assert job[n] == ToLower(full)[n];
    }
  }

  /** A destroy Job's name is read back as the TfRun's name before its last eight characters, so destroy Jobs tell
      TfRuns apart. */
  lemma DestroyNamesAreDistinct(name: string, other: string)
    requires Lowercase(name) && Lowercase(other)
    ensures var d := DestroyName(name); d == name + "-destroy" && d[..|d|-8] == name && d[|d|-8..] == "-destroy"
    ensures DestroyName(name) == DestroyName(other) <==> name == other
  {
    ToLowerKeeps(name + "-destroy");
    ToLowerKeeps(other + "-destroy");
    assert (name + "-destroy")[..|name|] == name && (other + "-destroy")[..|other|] == other;
  }

  /** A name that is cut loses the last digit of its hash at least. */
  lemma CutLosesDigit(name: string, g: nat, h: Hash, h': Hash)
    requires !Fits(name, g) && h[..7] == h'[..7]
    ensures BuildJobName(name, BuildRunID(g, h)) == BuildJobName(name, BuildRunID(g, h'))
  {
    var head := "apply-" + name + "-";
    var s, s' := head + BuildRunID(g, h), head + BuildRunID(g, h');
    CutRunIds(g, h, h');
    assert s[..|s|-1] == head + BuildRunID(g, h)[..|BuildRunID(g, h)|-1];
    assert s'[..|s'|-1] == head + BuildRunID(g, h')[..|BuildRunID(g, h')|-1];
    assert s[..63] == s[..|s|-1][..63] == s'[..63];
    assert ToLower(s)[..63] == ToLower(s[..63]);
    assert ToLower(s')[..63] == ToLower(s'[..63]);
  }

  lemma CutRunIds(g: nat, h: Hash, h': Hash)
    requires h[..7] == h'[..7]
    ensures var s, s' := BuildRunID(g, h), BuildRunID(g, h'); |s| == |s'| && s[..|s|-1] == s'[..|s|-1]
  {
    var s, head := BuildRunID(g, h), "gen-" + Decimal(g) + "-";
    assert s[..|s|-1] == head + h[..7];
    assert BuildRunID(g, h')[..|s|-1] == head + h'[..7];
  }

  /** Up to this generation the Job names of a TfRun tell generations and hash digits apart. */
  ghost predicate TellsRunsApart(name: string, last: nat) {
    forall g: nat, g': nat, h: Hash, h': Hash
      | g <= last && g' <= last && BuildJobName(name, BuildRunID(g, h)) == BuildJobName(name, BuildRunID(g', h'))
      :: g == g' && h[..8] == h'[..8]
  }

  lemma FittingNamesTell(name: string, last: nat)
    requires Lowercase(name) && Fits(name, last)
    ensures TellsRunsApart(name, last)
  {
    hide BuildJobName, BuildRunID;
    forall g: nat, g': nat, h: Hash, h': Hash
      | g <= last && g' <= last && BuildJobName(name, BuildRunID(g, h)) == BuildJobName(name, BuildRunID(g', h'))
      ensures g == g' && h[..8] == h'[..8]
    {
      DecimalGrows(g, last);
      DecimalGrows(g', last);
      JobNamesAreDistinct(name, name, g, g', h, h');
    }
  }

  /** They do so exactly when the names of that generation are not cut. */
  lemma JobNamesTellRunsApartExactly(name: string, last: nat)
    requires Lowercase(name)
    ensures Fits(name, last) <==> TellsRunsApart(name, last)
  {
    hide BuildJobName, BuildRunID;
    if Fits(name, last) {
      FittingNamesTell(name, last);
    } else {
      var h: Hash, h': Hash := "0000000000000000", "0000000100000000";
      CutLosesDigit(name, last, h, h');
      assert h[..8][7] != h'[..8][7];
    }
  }

  /** Long names lose everything that tells runs apart. */
  lemma LongNamesCollide(name: string, g: nat, g': nat, h: Hash, h': Hash)
    requires 57 <= |name|
    ensures BuildJobName(name, BuildRunID(g, h)) == BuildJobName(name, BuildRunID(g', h'))
  {
    var s, s' := "apply-" + name + "-" + BuildRunID(g, h), "apply-" + name + "-" + BuildRunID(g', h');
    assert s[..63] == ("apply-" + name)[..63] == s'[..63];
    assert ToLower(s)[..63] == ToLower(s[..63]);
    assert ToLower(s')[..63] == ToLower(s'[..63]);
  }

  /* ---------- valid labels ---------- */

  /** A label as sections 2.3.1 and 2.3.4 of RFC 1035 want it, in lower case. */
  predicate IsLabel(s: string) {
    1 <= |s| <= 63 && IsLetter(s[0]) && s[|s|-1] != '-' && LabelChars(s)
  }

  /** The name of a custom resource: label characters and dots, with a letter or digit at both ends. */
  predicate IsObjectName(s: string) {
    && s != "" && (forall i | 0 <= i < |s| :: InLabel(s[i]) || s[i] == '.')
    && s[0] !in ['-', '.'] && s[|s|-1] !in ['-', '.']
  }

  /** For a name of any length the Job's name is a label exactly when no dot is left after cutting. */
  lemma JobNameIsLabel(name: string, g: nat, h: Hash)
    requires IsObjectName(name)
    ensures var s := BuildJobName(name, BuildRunID(g, h));
            && 5 <= |s| <= 63 && s[0] == 'a' && s[|s|-1] != '-'
            && (IsLabel(s) <==> '.' !in (if |name| <= 57 then name else name[..57]))
  {
    hide BuildRunID;
    var head, runId := "apply-" + name + "-", BuildRunID(g, h);
    RunIdChars(g, h);
    LowercaseJoined(head, runId);
    ToLowerKeeps(head + runId);
    assert (head + runId)[0] == 'a' && (head + runId)[4] == 'y';
    CutChars(name, runId, Cut(head + runId));
  }

  lemma CutChars(name: string, tail: string, s: string)
    requires IsObjectName(name) && LabelChars(tail)
    requires var full := "apply-" + name + "-" + tail;
             s <= full && |s| <= 63 && forall i | |s| <= i < |full| && i < 63 :: full[i] == '-'
    ensures LabelChars(s) <==> '.' !in (if |name| <= 57 then name else name[..57])
  {
    var full, kept := "apply-" + name + "-" + tail, if |name| <= 57 then name else name[..57];
    if '.' in kept {
      var i :| 0 <= i < |kept| && kept[i] == '.';
      assert full[6 + i] == '.' && 6 + i < |s|;
      assert s[6 + i] == '.';
    } else {
      forall i | 0 <= i < |s|
        ensures InLabel(s[i])
      {
        assert s[i] == full[i];
        if 6 <= i < 6 + |name| {
          assert full[i] == kept[i - 6];
        } else if 6 + |name| < i {
          assert full[i] == tail[i - 7 - |name|];
        }
      }
    }
  }

  /* ---------- what the controller's runs assume of names ---------- */

  /** The names of one TfRun as the controller builds them. */
  function ControllerConfig(name: string, digest: HashInput -> Hash): Config {
    Config(digest,
           (g: nat, h: string) => if 8 <= |h| then BuildJobName(name, BuildRunID(g, h)) else "",
           (g: nat, h: string) => if 8 <= |h| then BuildRunID(g, h) else "",
           DestroyName(name))
  }

  lemma ControllerIsWellNamed(name: string, digest: HashInput -> Hash)
    ensures WellNamed(ControllerConfig(name, digest))
  {
    var cfg := ControllerConfig(name, digest);
    forall g: nat, h: string | 8 <= |h|
      ensures cfg.jobName(g, h) != "" && cfg.jobName(g, h) != cfg.destroyName
    {
      NeverItsDestroyName(name, g, h);
      assert ("apply-" + name + "-" + BuildRunID(g, h))[0] == 'a';
    }
  }

  lemma {:induction false} DecimalGrows(m: nat, n: nat)
    requires m <= n
    ensures |Decimal(m)| <= |Decimal(n)|
  {
    if 10 <= m {
      DecimalGrows(m / 10, n / 10);
    }
  }
}
