/**
 * Request signing for the exchange's v5 API (src/auth.rs).
 *
 * The signature is the lowercase Base16 encoding of HMAC-SHA256 (RFC 2104
 * over FIPS 180-4 SHA-256), keyed with the UTF-8 bytes of the API secret,
 * over the UTF-8 bytes of the canonical message. The MAC itself is a
 * parameter: its only known property is that it yields 32 bytes.
 */
module Auth {
  import opened Wrappers
  import opened Encoding

  /** An API key and its secret, stored exactly as given. */
  datatype Credentials = Credentials(apiKey: string, apiSecret: string)

  /** A SHA-256 digest. */
  type Digest = d: seq<byte> | |d| == 32 witness seq(32, _ => 0)

  /** HMAC-SHA256 as a function of (key bytes, message bytes). */
  type Mac = (seq<byte>, seq<byte>) -> Digest

  /**
   * The string that is signed: decimal timestamp, API key, decimal receive
   * window and payload, in that order and with nothing between them.
   */
  function CanonicalMessage(timestamp: I64, apiKey: string, recvWindow: U64, payload: string): (m: string)
    ensures |m| == |IntToDecimal(timestamp)| + |apiKey| + |NatToDecimal(recvWindow)| + |payload|
    ensures m[..|IntToDecimal(timestamp)|] == IntToDecimal(timestamp)
    ensures var n := |IntToDecimal(timestamp)|; m[n..n + |apiKey|] == apiKey
    ensures var n := |IntToDecimal(timestamp)| + |apiKey|; m[n..n + |NatToDecimal(recvWindow)|] == NatToDecimal(recvWindow)
    ensures m[|m| - |payload|..] == payload
  {
    IntToDecimal(timestamp) + apiKey + NatToDecimal(recvWindow) + payload
  }

  /** Changing only the timestamp changes the canonical message. */
  lemma CanonicalMessageSensitiveToTimestamp(t: I64, t': I64, k: string, w: U64, p: string)
    requires CanonicalMessage(t, k, w, p) == CanonicalMessage(t', k, w, p)
    ensures t == t'
  {
    var m, ts, ts' := CanonicalMessage(t, k, w, p), IntToDecimal(t), IntToDecimal(t');
    assert |ts| == |ts'|;
    assert ts == m[..|ts|] == ts';
    IntDecimalInjective(t, t');
  }

  /** Changing only the API key changes the canonical message. */
  lemma CanonicalMessageSensitiveToKey(t: I64, k: string, k': string, w: U64, p: string)
    requires CanonicalMessage(t, k, w, p) == CanonicalMessage(t, k', w, p)
    ensures k == k'
  {
    var ts, rest := IntToDecimal(t), NatToDecimal(w) + p;
    Reassociate(ts, k, NatToDecimal(w), p);
    Reassociate(ts, k', NatToDecimal(w), p);
    MiddleDetermined(ts, k, k', rest);
  }

  lemma Reassociate(a: string, b: string, c: string, d: string)
    ensures a + b + c + d == a + (b + (c + d)) == (a + b) + (c + d)
  {
  }

  /** Between a common prefix and a common suffix, equal strings have equal middles. */
  lemma MiddleDetermined(a: string, b: string, b': string, c: string)
    requires a + (b + c) == a + (b' + c)
    ensures b == b'
  {
    var s := a + (b + c);
    assert s[|a|..] == b + c;
    assert s[|a|..] == b' + c;
    assert |b| == |b'|;
    assert b == (b + c)[..|b|];
    assert b' == (b' + c)[..|b|];
  }

  /** Changing only the receive window changes the canonical message. */
  lemma CanonicalMessageSensitiveToRecvWindow(t: I64, k: string, w: U64, w': U64, p: string)
    requires CanonicalMessage(t, k, w, p) == CanonicalMessage(t, k, w', p)
    ensures w == w'
  {
    var pre, ws, ws' := IntToDecimal(t) + k, NatToDecimal(w), NatToDecimal(w');
    Reassociate(IntToDecimal(t), k, ws, p);
    Reassociate(IntToDecimal(t), k, ws', p);
    MiddleDetermined(pre, ws, ws', p);
    DecimalRoundTrip(w);
    DecimalRoundTrip(w');
  }

  /** Changing only the payload changes the canonical message. */
  lemma CanonicalMessageSensitiveToPayload(t: I64, k: string, w: U64, p: string, p': string)
    requires CanonicalMessage(t, k, w, p) == CanonicalMessage(t, k, w, p')
    ensures p == p'
  {
    var pre := IntToDecimal(t) + k + NatToDecimal(w);
    var m := CanonicalMessage(t, k, w, p);
    assert m == pre + p;
    assert m == pre + p';
    assert p == m[|pre|..] == p';
  }

  /**
   * `generate_signature`: hex(HMAC-SHA256(secret, canonical message)).
   * Always 64 lowercase hex characters, which decode back to the digest.
   * Being a function, it gives the same signature for the same five inputs.
   */
  function GenerateSignature(timestamp: I64, apiKey: string, recvWindow: U64,
                             payload: string, secret: string, mac: Mac): (sig: string)
    ensures |sig| == 64
    ensures forall i :: 0 <= i < |sig| ==> IsLowerHex(sig[i])
    ensures Unhex(sig) == Some(mac(Utf8(secret), Utf8(CanonicalMessage(timestamp, apiKey, recvWindow, payload))))
  {
    var digest := mac(Utf8(secret), Utf8(CanonicalMessage(timestamp, apiKey, recvWindow, payload)));
    HexRoundTrip(digest);
    Hex(digest)
  }

  /** Two signatures are equal exactly when the two MAC digests are. */
  lemma SignatureDeterminesDigest(t: I64, k: string, w: U64, p: string, s: string,
                                  t': I64, k': string, w': U64, p': string, s': string, mac: Mac)
    ensures GenerateSignature(t, k, w, p, s, mac) == GenerateSignature(t', k', w', p', s', mac)
        <==> mac(Utf8(s), Utf8(CanonicalMessage(t, k, w, p))) == mac(Utf8(s'), Utf8(CanonicalMessage(t', k', w', p')))
  {
    HexInjective(mac(Utf8(s), Utf8(CanonicalMessage(t, k, w, p))), mac(Utf8(s'), Utf8(CanonicalMessage(t', k', w', p'))));
  }

  /** The message signed for the documented GET example. */
  lemma CanonicalMessageExample()
    ensures CanonicalMessage(1658384314791, "XXXXXXXXXX", 5000, "category=option&symbol=BTC-29JUL22-25000-C")
         == "1658384314791" + "XXXXXXXXXX" + "5000" + "category=option&symbol=BTC-29JUL22-25000-C"
  {
    RecvWindowDecimal();
    TimestampDecimal();
  }

  lemma RecvWindowDecimal()
    ensures NatToDecimal(5000) == "5000"
  {
    assert NatToDecimal(5) == "5";
    assert NatToDecimal(50) == "50";
    assert NatToDecimal(500) == "500";
  }

  lemma TimestampDecimal()
    ensures IntToDecimal(1658384314791) == "1658384314791"
  {
    assert NatToDecimal(1) == "1";
    assert NatToDecimal(16) == "16";
    assert NatToDecimal(165) == "165";
    assert NatToDecimal(1658) == "1658";
    assert NatToDecimal(16583) == "16583";
    assert NatToDecimal(165838) == "165838";
    assert NatToDecimal(1658384) == "1658384";
    assert NatToDecimal(16583843) == "16583843";
    assert NatToDecimal(165838431) == "165838431";
    assert NatToDecimal(1658384314) == "1658384314";
    assert NatToDecimal(16583843147) == "16583843147";
    assert NatToDecimal(165838431479) == "165838431479";
  }
}
