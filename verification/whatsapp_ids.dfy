/** WhatsApp addresses (JIDs): the canonical user-domain suffix, the
    webhook's sender normalisation and the send endpoint's digit stripping. */
module WhatsAppIds {

  /** The domain every personal WhatsApp address ends in. */
  const JidSuffix: string := "@s.whatsapp.net"

  /** A character matched by `\d` in a JavaScript regular expression. */
  predicate IsDigit(c: char) {
    '0' <= c <= '9'
  }

  predicate AllDigits(s: string) {
    forall i :: 0 <= i < |s| ==> IsDigit(s[i])
  }

  /** Sender normalisation of the webhook: an id that already carries a
      domain is kept, a bare number gets the user-domain suffix. */
  function NormalizeSender(sender: string): (r: string)
    ensures '@' in r
    ensures |sender| <= |r| && r[..|sender|] == sender
    ensures '@' in sender <==> r == sender
    ensures '@' !in sender <==> r == sender + JidSuffix
  {
    if '@' in sender then sender
    else
      assert (sender + JidSuffix)[|sender|] == '@';
      sender + JidSuffix
  }

  /** `number.replace(/\D/g, '')`: the decimal digits of `s`, in order. */
  function DigitsOnly(s: string): (r: string)
    ensures |r| <= |s|
    ensures AllDigits(r)
    ensures AllDigits(s) ==> r == s
    ensures (forall i :: 0 <= i < |s| ==> !IsDigit(s[i])) ==> r == []
  {
    if s == [] then []
    else if IsDigit(s[0]) then [s[0]] + DigitsOnly(s[1..])
    else DigitsOnly(s[1..])
  }

  /** Stripping distributes over concatenation: what is kept from `a + b` is
      what is kept from `a` followed by what is kept from `b`. Together with
      the one-character cases this pins down "the digits, in their original
      order". */
  lemma {:induction false} DigitsOnlyConcat(a: string, b: string)
    ensures DigitsOnly(a + b) == DigitsOnly(a) + DigitsOnly(b)
  {
    if a == [] {
      assert a + b == b;
    } else {
      assert (a + b)[0] == a[0];
      assert (a + b)[1..] == a[1..] + b;
      DigitsOnlyConcat(a[1..], b);
    }
  }

  /** Every digit of `s` is kept as often as it occurs, and nothing else is. */
  lemma {:induction false} DigitsOnlyKeepsEveryDigit(s: string, c: char)
    ensures multiset(DigitsOnly(s))[c] == if IsDigit(c) then multiset(s)[c] else 0
  {
    if s != [] {
      DigitsOnlyKeepsEveryDigit(s[1..], c);
      assert s == [s[0]] + s[1..];
      assert multiset(s) == multiset([s[0]]) + multiset(s[1..]);
    }
  }

  /** Stripping twice strips nothing more. */
  lemma DigitsOnlyIdempotent(s: string)
    ensures DigitsOnly(DigitsOnly(s)) == DigitsOnly(s)
  {
  }

  /** The address the send endpoint builds from a phone number. */
  function SendJid(number: string): (jid: string)
    ensures |jid| == |DigitsOnly(number)| + |JidSuffix| <= |number| + |JidSuffix|
    ensures jid[..|jid| - |JidSuffix|] == DigitsOnly(number)
    ensures jid[|jid| - |JidSuffix|..] == JidSuffix
  {
    DigitsOnly(number) + JidSuffix
  }

  /** An address built by the send endpoint is already in the form the
      webhook normalises senders to, and its only `'@'` is the suffix's. */
  lemma SendJidIsNormalised(number: string)
    ensures NormalizeSender(SendJid(number)) == SendJid(number)
    ensures forall i :: 0 <= i < |SendJid(number)| && SendJid(number)[i] == '@' ==>
              i == |DigitsOnly(number)|
  {
    var d := DigitsOnly(number);
    var jid := SendJid(number);
    assert jid[|d|] == '@';
    assert forall i :: 0 <= i < |d| ==> jid[i] == d[i] && IsDigit(d[i]);
    assert forall i :: |d| < i < |jid| ==> jid[i] == JidSuffix[i - |d|];
    assert forall k :: 0 < k < |JidSuffix| ==> JidSuffix[k] != '@';
  }

  /** Normalising twice is the same as normalising once. */
  lemma NormalizeSenderIdempotent(sender: string)
    ensures NormalizeSender(NormalizeSender(sender)) == NormalizeSender(sender)
  {
  }
}
