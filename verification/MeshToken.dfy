/** Mesh tokens: minted by the control plane (control-plane/service/route_service.go), checked by the
    relay's dispatcher (relay-node/mesh/dispatcher.go). HMAC-SHA256 is a parameter: any function from a
    key and a message to 32 bytes. Base64, which wraps the token in transit, is left out. */
module MeshToken {
  import opened Common
  import opened Framing
  import opened RoundRobin

  const MAC_LEN := 32
  const TOKEN_TTL := 7 * 24 * 60 * 60

  type Hmac = (Bytes, Bytes) -> Bytes

  ghost predicate IsHmac(h: Hmac) {
    forall key, message :: |h(key, message)| == MAC_LEN
  }

  /** The low `k` bytes of `n`, most significant first. */
  function BigEndian(n: nat, k: nat): (b: Bytes)
    ensures |b| == k
  {
    if k == 0 then [] else BigEndian(n / 256, k - 1) + [(n % 256) as Byte]
  }

  function FromBigEndian(b: Bytes): nat {
    if b == [] then 0 else FromBigEndian(b[..|b| - 1]) * 256 + b[|b| - 1] as int
  }

  function Pow256(k: nat): (p: nat)
    ensures p > 0
  {
    if k == 0 then 1 else 256 * Pow256(k - 1)
  }

  lemma {:induction false} BigEndianRoundTrip(n: nat, k: nat)
    requires n < Pow256(k)
    ensures FromBigEndian(BigEndian(n, k)) == n
  {
    if k > 0 {
      BigEndianRoundTrip(n / 256, k - 1);
      var b := BigEndian(n, k);
      assert b[..|b| - 1] == BigEndian(n / 256, k - 1);
    }
  }

  /** Byte `i` of `k` is the `i`-th digit base 256 from the left. */
  lemma {:induction false} MostSignificantFirst(n: nat, k: nat, i: nat)
    requires i < k
    ensures BigEndian(n, k)[i] as int == n / Pow256(k - 1 - i) % 256
  {
    if i < k - 1 {
      MostSignificantFirst(n / 256, k - 1, i);
      DivideTwice(n, Pow256(k - 2 - i));
    }
  }

  lemma DivideTwice(n: nat, p: nat)
    requires p > 0
    ensures n / 256 / p == n / (256 * p)
  {
    var q, r := n / 256, n % 256;
    var s, t := q / p, q % p;
    assert n == 256 * q + r && q == s * p + t;
    assert n == s * (256 * p) + (256 * t + r) by {
      assert 256 * (s * p) == s * (256 * p);
    }
    assert 256 * t + r < 256 * p;
    Division(s, 256 * t + r, 256 * p);
  }

  const TWO_63 := 0x8000_0000_0000_0000
  const TWO_64 := 0x1_0000_0000_0000_0000

  /** Go's conversions between int64 and uint64. */
  function ToUint64(n: int): nat {
    n % TWO_64
  }

  function ToInt64(n: nat): int
    requires n < TWO_64
  {
    if n < TWO_63 then n else n - TWO_64
  }

  /** The eight bytes of an expiry, and back. */
  function PutExpiry(expiry: int): (b: Bytes)
    ensures |b| == 8
  {
    BigEndian(ToUint64(expiry), 8)
  }

  function GetExpiry(b: Bytes): int
    requires |b| == 8
  {
    ToInt64(FromBigEndian(b) % TWO_64)
  }

  lemma ExpiryRoundTrip(expiry: int)
    requires -TWO_63 <= expiry < TWO_63
    ensures GetExpiry(PutExpiry(expiry)) == expiry
  {
    assert Pow256(2) == 0x1_0000 && Pow256(4) == 0x1_0000_0000 && Pow256(6) == 0x1_0000_0000_0000;
    assert Pow256(8) == TWO_64;
    BigEndianRoundTrip(ToUint64(expiry), 8);
  }

  /** Mints a token for a decoded public key: expiry and a MAC over key and expiry. Empty when there is
      no secret or the key is not 32 bytes. */
  function Issue(h: Hmac, secret: Bytes, raw: Bytes, now: int): Bytes {
    if |secret| == 0 || |raw| != PUBKEY_LEN then []
    else
      var expiry := PutExpiry(now + TOKEN_TTL);
      expiry + h(secret, raw + expiry)
  }

  function Verify(h: Hmac, secret: Bytes, payload: Bytes, now: int): Option<Pubkey> {
    if |payload| < PUBKEY_LEN + 8 + MAC_LEN then None
    else
      var signed := payload[..PUBKEY_LEN + 8];
      var expiry := GetExpiry(payload[PUBKEY_LEN..PUBKEY_LEN + 8]);
      var mac := payload[PUBKEY_LEN + 8..PUBKEY_LEN + 8 + MAC_LEN];
      if now > expiry then None
      else if mac != h(secret, signed) then None
      else Some(payload[..PUBKEY_LEN])
  }

  /** The key a HELLO admits: any, while no secret is set; otherwise one with a valid token. */
  function Authenticate(h: Hmac, secret: Bytes, payload: Bytes, now: int): Option<Pubkey> {
    if |payload| < PUBKEY_LEN then None
    else if |secret| == 0 then Some(payload[..PUBKEY_LEN])
    else Verify(h, secret, payload, now)
  }

  /** Under a secret, a HELLO is accepted exactly if it is a key of 32 bytes, an expiry of eight not yet past,
      and the MAC of both under the secret in the next 32; what follows is not looked at. */
  lemma AcceptedIffValid(h: Hmac, secret: Bytes, payload: Bytes, now: int, pk: Pubkey)
    requires |secret| > 0
    ensures Authenticate(h, secret, payload, now) == Some(pk) <==>
              |payload| >= 72 && payload[..32] == pk && now <= GetExpiry(payload[32..40])
              && payload[40..72] == h(secret, payload[..40])
  {
  }

  /** What the control plane mints the relay accepts, for that key, until exactly seven days later. */
  lemma IssuedTokenAdmits(h: Hmac, secret: Bytes, raw: Pubkey, issued: int, now: int)
    requires IsHmac(h) && |secret| > 0
    requires -TWO_63 <= issued + TOKEN_TTL < TWO_63
    ensures Authenticate(h, secret, raw + Issue(h, secret, raw, issued), now) ==
            if now <= issued + 7 * 24 * 3600 then Some(raw) else None
  {
    var expiry := PutExpiry(issued + TOKEN_TTL);
    var mac := h(secret, raw + expiry);
    var payload := raw + Issue(h, secret, raw, issued);
    ExpiryRoundTrip(issued + TOKEN_TTL);
    hide PutExpiry, GetExpiry;
    assert payload == raw + expiry + mac;
    assert payload[..PUBKEY_LEN] == raw && payload[..PUBKEY_LEN + 8] == raw + expiry;
    assert payload[PUBKEY_LEN..PUBKEY_LEN + 8] == expiry;
    assert payload[PUBKEY_LEN + 8..PUBKEY_LEN + 8 + MAC_LEN] == mac;
  }

  /** Under a secret, a token admits only the key it was minted for: with another key in front it
      passes only if the two signed messages share their MAC. */
  lemma TokenIsBound(h: Hmac, secret: Bytes, raw: Pubkey, other: Pubkey, issued: int, now: int)
    requires IsHmac(h) && |secret| > 0
    ensures Authenticate(h, secret, other + Issue(h, secret, raw, issued), now).Some? ==>
              var expiry := PutExpiry(issued + TOKEN_TTL);
              h(secret, other + expiry) == h(secret, raw + expiry)
  {
    var expiry := PutExpiry(issued + TOKEN_TTL);
    var mac := h(secret, raw + expiry);
    var payload := other + Issue(h, secret, raw, issued);
    assert payload == other + expiry + mac;
    assert payload[..PUBKEY_LEN + 8] == other + expiry;
    assert payload[PUBKEY_LEN + 8..PUBKEY_LEN + 8 + MAC_LEN] == mac;
  }

  /** A bare key is a HELLO only while no secret is set. */
  lemma BareKeyAdmits(h: Hmac, secret: Bytes, raw: Pubkey, now: int)
    ensures Authenticate(h, secret, raw, now).Some? <==> |secret| == 0
  {
  }
}
