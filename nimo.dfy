/** The voice assistant: it scans each recognised transcript for danger
    keywords and raises the emergency once per keyword it finds. */
module Nimo {
  import opened Platform
  import opened Contacts
  import opened Text

  const DangerKeywords: seq<string> := ["help me", "save me", "protect me", "emergency"]
  const DangerAlert := "\U{1F6A8} Danger Detected! SOS Activated!"
  /** The message "🚨 EMERGENCY ALERT! I need immediate help. Track my location."
      after `encodeURIComponent`. */
  const EmergencyBody := "%F0%9F%9A%A8%20EMERGENCY%20ALERT!%20I%20need%20immediate%20help.%20Track%20my%20location."

  /** What `triggerEmergency` does, given what local storage holds: the alert,
      the request to start recording, then the SMS fan-out when a profile is stored. */
  function EmergencyEffects(stored: Option<Profile>): seq<Effect>
  {
    [Alert(DangerAlert), StartRecording]
      + match stored
        case None => []
        case Some(p) => SmsEffects(ContactList(p), EmergencyBody)
  }

  method TriggerEmergency(b: Browser)
    modifies b`log
    ensures b.log == old(b.log) + EmergencyEffects(b.userData)
  {
    b.log := b.log + [Alert(DangerAlert), StartRecording];
    var userData := b.userData;
    if userData.None? {
      return;
    }
    OpenSmsLinks(b, ContactList(userData.value), EmergencyBody);
  }

  /** The transcript that `onresult` examines: the first alternative of the
      last result, lower-cased. */
  function Heard(results: seq<string>): (t: string)
    requires |results| > 0
    ensures |t| == |results[|results| - 1]|
    ensures forall i :: 0 <= i < |t| ==> !IsUpper(t[i])
  {
    ToLower(results[|results| - 1])
  }

  /** The keywords, in list order, that occur in `transcript`. */
  function Matches(transcript: string, keywords: seq<string>): (r: seq<string>)
    ensures |r| <= |keywords|
    decreases |keywords|
  {
    if keywords == [] then []
    else
      var k := keywords[|keywords| - 1];
      Matches(transcript, keywords[..|keywords| - 1]) + (if Includes(transcript, k) then [k] else [])
  }

  /** `k` blocks of the same effects, one after the other. */
  function Repeat(block: seq<Effect>, k: nat): (r: seq<Effect>)
  {
    if k == 0 then [] else Repeat(block, k - 1) + block
  }

  /** `recognition.onresult`: one `triggerEmergency` per keyword found. */
  method OnResult(b: Browser, results: seq<string>)
    requires |results| > 0
    modifies b`log
    ensures b.log == old(b.log)
      + Repeat(EmergencyEffects(b.userData), |Matches(Heard(results), DangerKeywords)|)
  {
    ScanForKeywords(b, Heard(results));
  }

  /** The `forEach` over the danger keywords in `onresult`. */
  method ScanForKeywords(b: Browser, transcript: string)
    modifies b`log
    ensures b.log == old(b.log)
      + Repeat(EmergencyEffects(b.userData), |Matches(transcript, DangerKeywords)|)
  {
    var i := 0;
    while i < |DangerKeywords|
      invariant 0 <= i <= |DangerKeywords|
      invariant b.userData == old(b.userData)
      invariant b.log == old(b.log)
        + Repeat(EmergencyEffects(b.userData), |Matches(transcript, DangerKeywords[..i])|)
    {
      var word := DangerKeywords[i];
      ghost var found := |Matches(transcript, DangerKeywords[..i])|;
      assert DangerKeywords[..i + 1][..i] == DangerKeywords[..i];
      if Includes(transcript, word) {
        TriggerEmergency(b);
        assert Repeat(EmergencyEffects(b.userData), found + 1)
            == Repeat(EmergencyEffects(b.userData), found) + EmergencyEffects(b.userData);
        assert |Matches(transcript, DangerKeywords[..i + 1])| == found + 1;
      } else {
        assert |Matches(transcript, DangerKeywords[..i + 1])| == found;
      }
      i := i + 1;
    }
    assert DangerKeywords[..i] == DangerKeywords;
  }

  /** A keyword is matched exactly when it is in the list and occurs in the transcript. */
  lemma {:induction false} MatchesExactly(transcript: string, keywords: seq<string>)
    ensures forall k :: k in Matches(transcript, keywords) <==> k in keywords && Includes(transcript, k)
    decreases |keywords|
  {
    if keywords != [] {
      var init := keywords[..|keywords| - 1];
      assert keywords == init + [keywords[|keywords| - 1]];
      MatchesExactly(transcript, init);
    }
  }

  lemma {:induction false} NoneIncludedNoMatches(transcript: string, keywords: seq<string>)
    requires forall k :: k in keywords ==> !Includes(transcript, k)
    ensures Matches(transcript, keywords) == []
    decreases |keywords|
  {
    if keywords != [] {
      var init := keywords[..|keywords| - 1];
      assert forall k :: k in init ==> k in keywords;
      assert keywords[|keywords| - 1] in keywords;
      NoneIncludedNoMatches(transcript, init);
    }
  }

  /** Earlier results play no part: two result lists that end alike match the
      same keywords. */
  lemma OnlyLastResultCounts(a: seq<string>, b: seq<string>)
    requires |a| > 0 && |b| > 0 && a[|a| - 1] == b[|b| - 1]
    ensures Matches(Heard(a), DangerKeywords) == Matches(Heard(b), DangerKeywords)
  {
  }

  /** A keyword heard only in an earlier result raises nothing. */
  lemma EarlierKeywordIgnored()
    ensures Matches(Heard(["help me", "hello"]), DangerKeywords) == []
  {
    assert Heard(["help me", "hello"]) == "hello";
    NoneIncludedNoMatches("hello", DangerKeywords);
  }

  predicate Distinct(ks: seq<string>)
  {
    forall i, j :: 0 <= i < j < |ks| ==> ks[i] != ks[j]
  }

  /** The distinct keywords of `ks` that occur in `transcript`. */
  ghost function Found(transcript: string, ks: seq<string>): set<string>
  {
    set k | k in ks && Includes(transcript, k)
  }

  lemma FoundSnoc(transcript: string, init: seq<string>, last: string)
    ensures Found(transcript, init + [last])
         == Found(transcript, init) + (if Includes(transcript, last) then {last} else {})
  {
    var ks := init + [last];
    assert forall k :: k in ks <==> k in init || k == last;
  }

  /** Each distinct keyword contained in the transcript is matched exactly once. */
  lemma {:induction false} MatchesCount(transcript: string, ks: seq<string>)
    requires Distinct(ks)
    ensures |Matches(transcript, ks)| == |Found(transcript, ks)|
    decreases |ks|
  {
    if ks == [] {
      assert Found(transcript, ks) == {};
    } else {
      var init, last := ks[..|ks| - 1], ks[|ks| - 1];
      assert Distinct(init);
      MatchesCount(transcript, init);
      assert last !in Found(transcript, init) by {
        forall i | 0 <= i < |init| ensures init[i] != last {
          assert ks[i] != ks[|ks| - 1];
        }
      }
      assert ks == init + [last];
      FoundSnoc(transcript, init, last);
    }
  }

  /** For the fixed keyword list: as many emergencies as different keywords heard. */
  lemma EmergencyPerKeywordHeard(transcript: string)
    ensures |Matches(transcript, DangerKeywords)| == |Found(transcript, DangerKeywords)|
  {
    MatchesCount(transcript, DangerKeywords);
  }

  /** The emergency is raised once per block: `k` matches give `k` copies. */
  lemma {:induction false} RepeatLength(block: seq<Effect>, k: nat)
    ensures |Repeat(block, k)| == k * |block|
    ensures k > 0 ==> Repeat(block, k)[..|block|] == block
  {
    if k > 0 {
      RepeatLength(block, k - 1);
      if k > 1 {
        assert Repeat(block, k)[..|block|] == Repeat(block, k - 1)[..|block|];
      }
    }
  }

  /** A transcript without any keyword raises nothing. */
  lemma NoKeywordNoEmergency(results: seq<string>, stored: Option<Profile>)
    requires |results| > 0
    requires forall k :: k in DangerKeywords ==> !Includes(Heard(results), k)
    ensures Repeat(EmergencyEffects(stored), |Matches(Heard(results), DangerKeywords)|) == []
  {
    NoneIncludedNoMatches(Heard(results), DangerKeywords);
  }

  lemma ToLowerConcat(a: string, b: string)
    ensures ToLower(a + b) == ToLower(a) + ToLower(b)
  {
  }

  /** A keyword spoken in any letter case, anywhere in the last result, even
      inside a longer word, raises the emergency. */
  lemma KeywordAnywhereAnyCase(before: string, spoken: string, after: string, results: seq<string>, k: string)
    requires k in DangerKeywords && ToLower(spoken) == k
    requires |results| > 0 && results[|results| - 1] == before + spoken + after
    ensures k in Matches(Heard(results), DangerKeywords)
    ensures |Matches(Heard(results), DangerKeywords)| >= 1
  {
    ToLowerConcat(before + spoken, after);
    ToLowerConcat(before, spoken);
    IncludesOfConcat(ToLower(before), k, ToLower(after));
    MatchesExactly(Heard(results), DangerKeywords);
  }
}
