/** The SMS fan-out shared by the voice assistant, the home page and the SOS
    button: one `sms:<number>?body=<message>` window per non-empty contact,
    in the order contact1, contact2, contact3. */
module Contacts {
  import opened Platform

  /** `[userData.contact1, userData.contact2, userData.contact3]` */
  function ContactList(p: Profile): (r: seq<string>)
    ensures |r| == 3
  {
    [p.contact1, p.contact2, p.contact3]
  }

  /** `sms:${number}?body=${message}` */
  function SmsUrl(number: string, body: string): string
  {
    "sms:" + number + "?body=" + body
  }

  /** What `if (number) window.open(...)` does for one number: "" is falsy. */
  function LinkFor(number: string, body: string): seq<Effect>
  {
    if number != "" then [OpenWindow(SmsUrl(number, body))] else []
  }

  /** The effects of the `forEach` over `numbers`, as they accumulate. */
  function SmsEffects(numbers: seq<string>, body: string): seq<Effect>
    decreases |numbers|
  {
    if numbers == [] then []
    else SmsEffects(numbers[..|numbers| - 1], body) + LinkFor(numbers[|numbers| - 1], body)
  }

  /** The non-empty numbers, in their original order. */
  function NonEmpty(numbers: seq<string>): (r: seq<string>)
    ensures |r| <= |numbers|
    ensures forall x :: x in r ==> x != "" && x in numbers
    ensures forall x :: x in numbers && x != "" ==> x in r
  {
    if numbers == [] then []
    else (if numbers[0] != "" then [numbers[0]] else []) + NonEmpty(numbers[1..])
  }

  lemma {:induction false} NonEmptySnoc(numbers: seq<string>, x: string)
    ensures NonEmpty(numbers + [x]) == NonEmpty(numbers) + (if x != "" then [x] else [])
  {
    if numbers != [] {
      assert (numbers + [x])[1..] == numbers[1..] + [x];
      NonEmptySnoc(numbers[1..], x);
    } else {
      assert NonEmpty([x][1..]) == [];
    }
  }

  /** One window per non-empty number, in order, every one with the same body;
      empty numbers are skipped. */
  lemma {:induction false} SmsEffectsOpenNonEmpty(numbers: seq<string>, body: string)
    ensures |SmsEffects(numbers, body)| == |NonEmpty(numbers)|
    ensures forall i :: 0 <= i < |NonEmpty(numbers)| ==>
      SmsEffects(numbers, body)[i] == OpenWindow(SmsUrl(NonEmpty(numbers)[i], body))
    decreases |numbers|
  {
    if numbers != [] {
      var init, last := numbers[..|numbers| - 1], numbers[|numbers| - 1];
      assert numbers == init + [last];
      NonEmptySnoc(init, last);
      SmsEffectsOpenNonEmpty(init, body);
    }
  }

  /** For a stored profile: a window for contact1, then contact2, then contact3,
      each only when non-empty. */
  lemma ProfileLinksInOrder(p: Profile, body: string)
    ensures SmsEffects(ContactList(p), body)
         == LinkFor(p.contact1, body) + LinkFor(p.contact2, body) + LinkFor(p.contact3, body)
  {
    var cs := ContactList(p);
    assert cs[..2] == [p.contact1, p.contact2];
    assert cs[..2][..1] == [p.contact1];
    assert [p.contact1][..0] == [];
    assert SmsEffects([p.contact1], body) == LinkFor(p.contact1, body);
    assert SmsEffects(cs[..2], body) == SmsEffects([p.contact1], body) + LinkFor(p.contact2, body);
    assert SmsEffects(cs, body) == SmsEffects(cs[..2], body) + LinkFor(p.contact3, body);
  }

  /** The first index of `c` in `s`, or `|s|` when there is none. */
  function IndexOf(s: string, c: char): (i: nat)
    ensures i <= |s|
    ensures i < |s| ==> s[i] == c
    ensures forall j :: 0 <= j < i ==> s[j] != c
  {
    if s == [] then 0 else if s[0] == c then 0 else 1 + IndexOf(s[1..], c)
  }

  /** Reads an `sms:` link back into its number and its message body. */
  function ParseSmsUrl(url: string): Option<(string, string)>
  {
    if |url| < 4 || url[..4] != "sms:" then None
    else
      var rest := url[4..];
      var q := IndexOf(rest, '?');
      if |rest| - q >= 6 && rest[q..q + 6] == "?body=" then Some((rest[..q], rest[q + 6..]))
      else None
  }

  /** The number and body of an SMS link are recovered from it, as long as
      the number holds no '?'. */
  lemma SmsUrlRoundTrip(number: string, body: string)
    requires '?' !in number
    ensures ParseSmsUrl(SmsUrl(number, body)) == Some((number, body))
  {
    var url := SmsUrl(number, body);
    var rest := url[4..];
    assert rest == number + "?body=" + body;
    assert rest[|number|] == '?';
    assert forall j :: 0 <= j < |number| ==> rest[j] == number[j];
    assert IndexOf(rest, '?') == |number|;
    assert rest[|number|..|number| + 6] == "?body=";
    assert rest[..|number|] == number;
    assert rest[|number| + 6..] == body;
  }

  /** The `forEach` over the contacts, issuing one `window.open` per non-empty number. */
  method OpenSmsLinks(b: Browser, numbers: seq<string>, body: string)
    modifies b`log
    ensures b.log == old(b.log) + SmsEffects(numbers, body)
  {
    var i := 0;
    while i < |numbers|
      invariant 0 <= i <= |numbers|
      invariant b.log == old(b.log) + SmsEffects(numbers[..i], body)
    {
      var number := numbers[i];
      if number != "" {
        b.log := b.log + [OpenWindow(SmsUrl(number, body))];
      }
      assert numbers[..i + 1][..i] == numbers[..i];
      assert SmsEffects(numbers[..i + 1], body) == SmsEffects(numbers[..i], body) + LinkFor(number, body);
      i := i + 1;
    }
    assert numbers[..i] == numbers;
  }
}
