/** internal/email/token_v2.go: the single-use turn token printed into a Reply-To address, and
    its verification. The MAC is any function from a key and a message to a string. */
module Token {
  import opened Wrappers
  import opened Numerals
  import opened Strings

  type Mac = (string, string) -> string

  const VERSION: string := "v2"

  // Instants are nanoseconds since 1970; a token carries whole seconds.
  const SECOND: int := 1000000000

  function Unix(nanos: int): int {
    nanos / SECOND
  }

  // ---- minting and verifying ----

  function Message(itemStr: string, turnStr: string, expiryStr: string): string {
    Join([VERSION, itemStr, turnStr, expiryStr], '|')
  }

  function SignV2(mac: Mac, key: string, itemStr: string, turnStr: string, expiryStr: string): string {
    mac(key, Message(itemStr, turnStr, expiryStr))
  }

  function MintTokenV2(mac: Mac, key: string, item: int, turn: int, expiry: int): string {
    var itemStr, turnStr, expiryStr := Itoa(item), Itoa(turn), Itoa(Unix(expiry));
    Join([VERSION, itemStr, turnStr, expiryStr, SignV2(mac, key, itemStr, turnStr, expiryStr)], '.')
  }

  function VerifyTokenV2(mac: Mac, key: string, tok: string, now: int): Option<(int, int)> {
    var parts := Split(tok, '.');
    if |parts| != 5 || parts[0] != VERSION then None
    else if parts[4] != SignV2(mac, key, parts[1], parts[2], parts[3]) then None
    else
      match (ParseInt64(parts[1]), ParseInt64(parts[2]), ParseInt64(parts[3]))
      case (Some(item), Some(turn), Some(expiry)) =>
        if turn < 1 || now > expiry * SECOND then None else Some((item, turn))
      case _ => None
  }

  // The token's text, and the text that is signed for it.
  lemma TokenText(mac: Mac, key: string, item: int, turn: int, expiry: int)
    ensures var signed := "v2|" + Itoa(item) + "|" + Itoa(turn) + "|" + Itoa(Unix(expiry));
            MintTokenV2(mac, key, item, turn, expiry)
            == "v2." + Itoa(item) + "." + Itoa(turn) + "." + Itoa(Unix(expiry)) + "." + mac(key, signed)
  {
    var i, t, e := Itoa(item), Itoa(turn), Itoa(Unix(expiry));
    hide Itoa, Unix, Join;
    JoinFour(VERSION, i, t, e, '|');
    var sig := SignV2(mac, key, i, t, e);
    JoinFive(VERSION, i, t, e, sig, '.');
    assert Message(i, t, e) == "v2|" + i + "|" + t + "|" + e;
    assert MintTokenV2(mac, key, item, turn, expiry) == "v2." + i + "." + t + "." + e + "." + sig;
  }

  lemma JoinCons(a: string, rest: seq<string>, sep: char)
    requires rest != []
    ensures Join([a] + rest, sep) == a + [sep] + Join(rest, sep)
  {
    assert ([a] + rest)[1..] == rest;
  }

  lemma JoinFour(a: string, b: string, c: string, d: string, sep: char)
    ensures Join([a, b, c, d], sep) == a + [sep] + b + [sep] + c + [sep] + d
  {
    assert Join([d], sep) == d;
    hide Join;
    JoinCons(c, [d], sep);
    JoinCons(b, [c] + [d], sep);
    JoinCons(a, [b] + ([c] + [d]), sep);
    assert [a, b, c, d] == [a] + ([b] + ([c] + [d]));
  }

  lemma JoinFive(a: string, b: string, c: string, d: string, e: string, sep: char)
    ensures Join([a, b, c, d, e], sep) == a + [sep] + b + [sep] + c + [sep] + d + [sep] + e
  {
    hide Join;
    JoinFour(b, c, d, e, sep);
    JoinCons(a, [b, c, d, e], sep);
    assert [a, b, c, d, e] == [a] + [b, c, d, e];
  }

  // ---- round trip ----

  // The alphabet of section 5 of RFC 4648.
  predicate Base64Url(c: char) {
    'A' <= c <= 'Z' || 'a' <= c <= 'z' || IsDigit(c) || c == '-' || c == '_'
  }

  ghost predicate PrintsBase64Url(mac: Mac) {
    forall key, message: string, c :: c in mac(key, message) ==> Base64Url(c)
  }

  lemma NumeralIsPlain(n: int)
    ensures '.' !in Itoa(n) && '|' !in Itoa(n)
  {
    hide Itoa;
    ItoaChars(n);
  }

  // A minted token verifies to its item and turn exactly when the turn is at least 1 and the
  // moment is not after the expiry second.
  lemma TokenRoundTrip(mac: Mac, key: string, item: int, turn: int, expiry: int, now: int)
    requires PrintsBase64Url(mac) && IsInt64(item) && IsInt64(turn) && IsInt64(Unix(expiry))
    ensures VerifyTokenV2(mac, key, MintTokenV2(mac, key, item, turn, expiry), now)
         == if turn >= 1 && now <= Unix(expiry) * SECOND then Some((item, turn)) else None
  {
    var i, t, e := Itoa(item), Itoa(turn), Itoa(Unix(expiry));
    var parts := [VERSION, i, t, e, SignV2(mac, key, i, t, e)];
    NumeralIsPlain(item);
    NumeralIsPlain(turn);
    NumeralIsPlain(Unix(expiry));
    assert '.' !in parts[4] by {
      assert forall c :: c in mac(key, Message(i, t, e)) ==> Base64Url(c);
    }
    ParseItoa(item);
    ParseItoa(turn);
    ParseItoa(Unix(expiry));
    hide Itoa, ParseInt64, Join, Split, Message, PrintsBase64Url;
    SplitJoin(parts, '.');
  }

  // ---- what is signed ----

  // Distinct items, turns and expiry seconds sign distinct messages.
  lemma MessagesDiffer(item: int, turn: int, expiry: int, item': int, turn': int, expiry': int)
    requires Message(Itoa(item), Itoa(turn), Itoa(expiry)) == Message(Itoa(item'), Itoa(turn'), Itoa(expiry'))
    ensures item == item' && turn == turn' && expiry == expiry'
  {
    SplitMessage(item, turn, expiry);
    SplitMessage(item', turn', expiry');
    hide Itoa, Message, Split;
    var a, b := [VERSION, Itoa(item), Itoa(turn), Itoa(expiry)], [VERSION, Itoa(item'), Itoa(turn'), Itoa(expiry')];
    assert a == b;
    assert a[1] == b[1] && a[2] == b[2] && a[3] == b[3];
    ItoaInjective(item, item');
    ItoaInjective(turn, turn');
    ItoaInjective(expiry, expiry');
  }

  lemma SplitMessage(item: int, turn: int, expiry: int)
    ensures Split(Message(Itoa(item), Itoa(turn), Itoa(expiry)), '|') == [VERSION, Itoa(item), Itoa(turn), Itoa(expiry)]
  {
    NumeralIsPlain(item);
    NumeralIsPlain(turn);
    NumeralIsPlain(expiry);
    hide Itoa, Split, Join;
    SplitJoin([VERSION, Itoa(item), Itoa(turn), Itoa(expiry)], '|');
  }

  // A string that parses as a number holds no separator, however it is written.
  lemma ParsedIsPlain(s: string)
    requires ParseInt64(s).Some?
    ensures '|' !in s
  {
    var signed := s[0] == '-' || s[0] == '+';
    var body := if signed then s[1..] else s;
    hide DigitsVal;
    forall k | 0 <= k < |s|
      ensures s[k] != '|'
    {
      if signed && k > 0 {
        assert s[k] == body[k - 1];
      }
    }
  }

  // The message a token claims a signature for, and whether its signature fits.
  predicate Signs(mac: Mac, key: string, tok: string, message: string) {
    var parts := Split(tok, '.');
    |parts| == 5 && message == Message(parts[1], parts[2], parts[3]) && parts[4] == mac(key, message)
  }

  // Under a MAC nobody can forge, so that only the messages of minted tokens carry a fitting
  // signature, every accepted token names an item and turn that were minted and have not expired,
  // even if its fields are written differently.
  lemma OnlyMintedTokensVerify(mac: Mac, key: string, tok: string, now: int, minted: set<(int, int, int)>)
    requires forall message :: Signs(mac, key, tok, message) ==>
               exists item, turn, expiry :: (item, turn, expiry) in minted && message == Message(Itoa(item), Itoa(turn), Itoa(expiry))
    requires forall p :: p in minted ==> IsInt64(p.0) && IsInt64(p.1) && IsInt64(p.2)
    ensures var r := VerifyTokenV2(mac, key, tok, now);
            r.Some? ==> exists expiry :: (r.value.0, r.value.1, expiry) in minted && now <= expiry * SECOND
  {
    var r := VerifyTokenV2(mac, key, tok, now);
    if r.Some? {
      var parts := Split(tok, '.');
      var message := Message(parts[1], parts[2], parts[3]);
      assert Signs(mac, key, tok, message);
      var item, turn, expiry :| (item, turn, expiry) in minted && message == Message(Itoa(item), Itoa(turn), Itoa(expiry));
      assert IsInt64((item, turn, expiry).0) && IsInt64((item, turn, expiry).1) && IsInt64((item, turn, expiry).2);
      hide Signs;
      SameFields(parts[1], parts[2], parts[3], item, turn, expiry);
      ParseItoa(item);
      ParseItoa(turn);
      ParseItoa(expiry);
      hide Itoa, ParseInt64, Message, Split;
      assert (r.value.0, r.value.1, expiry) in minted;
    }
  }

  lemma SameFields(itemStr: string, turnStr: string, expiryStr: string, item: int, turn: int, expiry: int)
    requires ParseInt64(itemStr).Some? && ParseInt64(turnStr).Some? && ParseInt64(expiryStr).Some?
    requires Message(itemStr, turnStr, expiryStr) == Message(Itoa(item), Itoa(turn), Itoa(expiry))
    ensures itemStr == Itoa(item) && turnStr == Itoa(turn) && expiryStr == Itoa(expiry)
  {
    ParsedIsPlain(itemStr);
    ParsedIsPlain(turnStr);
    ParsedIsPlain(expiryStr);
    SplitMessage(item, turn, expiry);
    hide Itoa, Split, ParseInt64, Join;
    var a, b := [VERSION, itemStr, turnStr, expiryStr], [VERSION, Itoa(item), Itoa(turn), Itoa(expiry)];
    SplitJoin(a, '|');
    assert a == b;
    assert a[1] == b[1] && a[2] == b[2] && a[3] == b[3];
  }
}
