/**
 * The string `signMessage` builds before signing: the "personal_sign" prefix
 * of EIP-191 (version byte 0x45) followed directly by the nonce. Unlike the
 * standard, no message length stands between the prefix and the nonce.
 */
module Messages {
  import opened Wrappers

  /** "\x19Ethereum Signed Message:\n". */
  const SignedMessagePrefix: string := "\U{19}Ethereum Signed Message:\n"

  /** `'\x19Ethereum Signed Message:\n' + nonce`. */
  function PersonalMessage(nonce: string): (msg: string)
    ensures |msg| == |SignedMessagePrefix| + |nonce|
    ensures msg[..|SignedMessagePrefix|] == SignedMessagePrefix
    ensures msg[|SignedMessagePrefix|..] == nonce
  {
    SignedMessagePrefix + nonce
  }

  /** Reads the nonce back out of a message, if the message has the prefix. */
  function NonceOf(msg: string): (r: Option<string>)
    ensures r.Some? <==> |SignedMessagePrefix| <= |msg| && msg[..|SignedMessagePrefix|] == SignedMessagePrefix
  {
    if |SignedMessagePrefix| <= |msg| && msg[..|SignedMessagePrefix|] == SignedMessagePrefix
    then Some(msg[|SignedMessagePrefix|..])
    else None
  }

  /** The prefix is 26 characters: the byte 0x19, the text, and a newline. */
  lemma PrefixLayout()
    ensures |SignedMessagePrefix| == 26
    ensures SignedMessagePrefix[0] as int == 0x19
    ensures SignedMessagePrefix[1..25] == "Ethereum Signed Message:"
    ensures SignedMessagePrefix[25] == '\n'
  {
    var text := "Ethereum Signed Message:";
    assert SignedMessagePrefix == ['\U{19}'] + text + ['\n'];
    assert SignedMessagePrefix[1..25] == text;
  }

  /** The nonce can always be recovered from the message built for it. */
  lemma NonceRoundTrip(nonce: string)
    ensures NonceOf(PersonalMessage(nonce)) == Some(nonce)
  {
  }

  /** Every message that carries the prefix is the message of its nonce. */
  lemma MessageRoundTrip(msg: string)
    requires NonceOf(msg).Some?
    ensures PersonalMessage(NonceOf(msg).value) == msg
  {
    var p := |SignedMessagePrefix|;
    assert msg == msg[..p] + msg[p..];
  }

  /** Distinct nonces give distinct messages. */
  lemma MessageInjective(n1: string, n2: string)
    requires PersonalMessage(n1) == PersonalMessage(n2)
    ensures n1 == n2
  {
    NonceRoundTrip(n1);
    NonceRoundTrip(n2);
  }

  /** No length field: the nonce's first character comes right after the prefix. */
  lemma NonceFollowsPrefix(nonce: string)
    requires |nonce| > 0
    ensures PersonalMessage(nonce)[26] == nonce[0]
  {
    PrefixLayout();
  }
}
