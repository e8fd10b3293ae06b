/** Input sanitisation applied to task and log text before it is stored:
    `clean_user_input` (strip, clip to 1000 characters, double single quotes)
    and `is_reasonable_input` (non-blank, at most 1000 raw characters, no
    deny-listed fragment in any letter case). The repository ships this file
    twice, as reflex/tracker/security.py and tracker/security.py, with
    identical text; this one module models both. */
module Security {
  import opened Text

  /** Longest text kept as typed, and the longest raw text accepted. */
  const MaxInputLength: nat := 1000

  const Ellipsis: string := "..."

  /** The deny-list as the source spells it; both sides are lower-cased
      before matching. */
  const Suspicious: seq<string> := ["<script", "javascript:", "DROP TABLE", "--", ";DELETE"]

  /** The same deny-list after `lower()`. */
  const DenyMarkers: seq<string> := ["<script", "javascript:", "drop table", "--", ";delete"]

  /** The length clip of `clean_user_input`: over-long text keeps its first
      1000 characters followed by "...". */
  function Clip(t: string): (r: string)
    ensures |r| <= MaxInputLength + |Ellipsis|
    ensures |t| <= MaxInputLength ==> r == t
    ensures |t| > MaxInputLength ==>
              |r| == MaxInputLength + |Ellipsis| && r[..MaxInputLength] == t[..MaxInputLength] && r[MaxInputLength..] == Ellipsis
  {
    if |t| > MaxInputLength then t[..MaxInputLength] + Ellipsis else t
  }

  /** The text `clean_user_input` escapes: stripped, then clipped. */
  function Prepared(text: string): string {
    Clip(Strip(text))
  }

  /** `clean_user_input`. The result never starts or ends with whitespace,
      is no longer than the clipped text plus one character per quote, and
      collapsing its doubled quotes gives back the stripped text, clipped
      only when that was over 1000 characters long. */
  function CleanUserInput(text: string): (r: string)
    ensures text == [] ==> r == []
    ensures r != [] ==> !IsSpace(r[0]) && !IsSpace(r[|r| - 1])
    ensures |Strip(text)| <= MaxInputLength ==> Unescape(r) == Strip(text)
    ensures |Strip(text)| > MaxInputLength ==>
              Unescape(r) == Strip(text)[..MaxInputLength] + Ellipsis
    ensures |r| == |Prepared(text)| + CountChar(Prepared(text), Quote)
    ensures |Prepared(text)| <= MaxInputLength + |Ellipsis|
  {
    if text == [] then
      []
    else
      UnescapeEscape(Prepared(text));
      PreparedEnds(text);
      Escape(Prepared(text))
  }

  /** Clipping keeps the stripped text's visible first character and ends
      either on the stripped text's last character or on a dot. */
  lemma PreparedEnds(text: string)
    ensures Prepared(text) != [] ==>
      !IsSpace(Prepared(text)[0]) && !IsSpace(Prepared(text)[|Prepared(text)| - 1])
  {
    var s := Strip(text);
    var p := Prepared(text);
    if |s| > MaxInputLength {
      assert p[0] == s[0];
      assert p[|p| - 1] == '.';
    }
  }

  /** The deny-list loop of `is_reasonable_input`: false at the first
      fragment found in the lower-cased text. */
  function NoneSuspicious(low: string, fragments: seq<string>): (ok: bool)
    ensures ok <==> forall k :: 0 <= k < |fragments| ==> !Contains(low, Lower(fragments[k]))
  {
    if fragments == [] then true
    else if Contains(low, Lower(fragments[0])) then false
    else
      assert forall k :: 1 <= k < |fragments| ==> fragments[k] == fragments[1..][k - 1];
      NoneSuspicious(low, fragments[1..])
  }

  /** Lower-casing the source's deny-list gives `DenyMarkers`. */
  lemma SuspiciousLowered()
    ensures forall k :: 0 <= k < |Suspicious| ==> Lower(Suspicious[k]) == DenyMarkers[k]
  {
    assert Lower("DROP TABLE") == "drop table";
    assert Lower(";DELETE") == ";delete";
    assert Lower("<script") == "<script";
    assert Lower("javascript:") == "javascript:";
    assert Lower("--") == "--";
  }

  /** `is_reasonable_input`: accepted exactly when the text is not blank, has
      at most 1000 characters before stripping, and no deny-list fragment
      occurs anywhere in its lower-cased form. */
  function IsReasonableInput(text: string): (ok: bool)
    ensures ok <==>
      && !AllSpace(text)
      && |text| <= MaxInputLength
      && forall m, i :: m in DenyMarkers ==> !OccursAt(Lower(text), m, i)
  {
    SuspiciousLowered();
    var ok :=
      if text == [] || |Strip(text)| == 0 then false
      else if |text| > MaxInputLength then false
      else NoneSuspicious(Lower(text), Suspicious);
    DenyListScan(Lower(text));
    ok
  }

  /** No fragment is found by the scan exactly when none occurs. */
  lemma DenyListScan(low: string)
    ensures NoneSuspicious(low, Suspicious) <==>
            forall m, i :: m in DenyMarkers ==> !OccursAt(low, m, i)
  {
    SuspiciousLowered();
    forall k | 0 <= k < |DenyMarkers| {
      ContainsIff(low, DenyMarkers[k]);
    }
  }

  /** Text that passes `is_reasonable_input` is stored without clipping:
      cleaning it changes nothing but the quotes. */
  lemma ReasonableIsNeverClipped(text: string)
    requires IsReasonableInput(text)
    ensures Prepared(text) == Strip(text)
    ensures Unescape(CleanUserInput(text)) == Strip(text)
  {
  }

  /** The injection attempt of the repository's input tests is rejected. */
  lemma InjectionRejected()
    ensures !IsReasonableInput("'; DROP TABLE tasks; --")
  {
    var low := Lower("'; DROP TABLE tasks; --");
    assert low[21..23] == "--";
    assert OccursAt(low, "--", 21);
  }

  /** Cleaning the injection attempt only doubles its quote. */
  lemma InjectionCleaned()
    ensures CleanUserInput("'; DROP TABLE tasks; --") == "''; DROP TABLE tasks; --"
  {
    var t := "'; DROP TABLE tasks; --";
    InjectionIsStripped();
    assert Prepared(t) == t;
    InjectionEscaped();
    DoubledQuoteLiteral();
  }

  lemma InjectionIsStripped()
    ensures Strip("'; DROP TABLE tasks; --") == "'; DROP TABLE tasks; --"
  {
    var t := "'; DROP TABLE tasks; --";
    assert SkipSpace(t, 0) == 0;
    assert SkipSpaceBack(t, |t|) == |t|;
  }

  lemma InjectionEscaped()
    ensures Escape("'; DROP TABLE tasks; --") == [Quote, Quote] + "; DROP TABLE tasks; --"
  {
    var rest := "; DROP TABLE tasks; --";
    assert "'; DROP TABLE tasks; --" == [Quote] + rest;
    EscapeLeadingQuote(rest);
  }

  lemma DoubledQuoteLiteral()
    ensures [Quote, Quote] + "; DROP TABLE tasks; --" == "''; DROP TABLE tasks; --"
  {
  }

  /** A lone quote in front of quote-free text is the only thing doubled. */
  lemma EscapeLeadingQuote(rest: string)
    requires Quote !in rest
    ensures Escape([Quote] + rest) == [Quote, Quote] + rest
  {
    assert ([Quote] + rest)[1..] == rest;
    EscapeNoQuote(rest);
  }

  /** The script-tag attempt of the repository's input tests is rejected. */
  lemma ScriptRejected()
    ensures !IsReasonableInput("<script>alert('xss')</script>")
  {
    var t := "<script>alert('xss')</script>";
    assert Lower(t)[0..7] == "<script";
    assert OccursAt(Lower(t), "<script", 0);
  }

  /** Text of 2000 characters is rejected for its length alone. */
  lemma OverlongRejected()
    ensures !IsReasonableInput(seq(2000, _ => 'A'))
  {
  }

  /** Empty and whitespace-only text is rejected and cleans to "". */
  lemma BlankRejected(text: string)
    requires AllSpace(text)
    ensures !IsReasonableInput(text)
    ensures CleanUserInput(text) == []
  {
  }

  /** Quote doubling leaves quote-free text unchanged. */
  lemma {:induction false} EscapeNoQuote(s: string)
    requires Quote !in s
    ensures Escape(s) == s
  {
    if s != [] {
      EscapeNoQuote(s[1..]);
    }
  }
}
