/**
 * `JSSDKSignature`: the WeChat JS-SDK signature. The four parameters are
 * written `name=value`, in ascending name order, joined by `&`; the result
 * is the lowercase hex SHA-1 digest of that string. SHA-1 (FIPS 180-4) is a
 * parameter, applied to the bytes of the canonical string.
 */
module Jssdk {
  import opened Wrappers
  import opened Base
  import opened Strings
  import Hex

  const TicketKey := "jsapi_ticket"
  const NoncestrKey := "noncestr"
  const TimestampKey := "timestamp"
  const UrlKey := "url"

  /** The parameter names in the order they are signed. */
  const SignedKeys: seq<string> := [TicketKey, NoncestrKey, TimestampKey, UrlKey]

  /** One signed pair, unescaped. */
  function Pair(key: string, value: string): string
  {
    key + "=" + value
  }

  /** The string that is hashed. */
  function Canonical(ticket: string, noncestr: string, timestamp: string, url: string): string
  {
    Join([Pair(TicketKey, ticket), Pair(NoncestrKey, noncestr), Pair(TimestampKey, timestamp), Pair(UrlKey, url)], "&")
  }

  /** The parameter map that is signed. */
  function SignParams(ticket: string, noncestr: string, timestamp: string, url: string): (m: map<string, string>)
    ensures m.Keys == {TicketKey, NoncestrKey, TimestampKey, UrlKey}
    ensures m[TicketKey] == ticket && m[NoncestrKey] == noncestr && m[TimestampKey] == timestamp && m[UrlKey] == url
  {
    map[TicketKey := ticket, NoncestrKey := noncestr, TimestampKey := timestamp, UrlKey := url]
  }

  /** `JSSDKSignature(ticket, noncestr, timestamp, url)`, with `sha1` for `sha1.Sum`. */
  method JSSDKSignature(sha1: string -> Hex.Digest, ticket: string, noncestr: string, timestamp: string, url: string)
    returns (signature: string, err: Option<Error>)
    ensures err == None
    ensures signature == Hex.Encode(sha1(Canonical(ticket, noncestr, timestamp, url)))
  {
    var signParams := SignParams(ticket, noncestr, timestamp, url);
    var keys := MapKeys(signParams);
    var sorted := new string[|keys|](i requires 0 <= i < |keys| => keys[i]);
    assert sorted[..] == keys;
    SortStrings(sorted);
    SignedOrder(sorted[..], signParams.Keys);
    var signStrs: seq<string> := [];
    for i := 0 to sorted.Length
      invariant |signStrs| == i
      invariant forall j :: 0 <= j < i ==> signStrs[j] == Pair(SignedKeys[j], signParams[SignedKeys[j]])
    {
      assert sorted[i] == sorted[..][i] == SignedKeys[i];
      signStrs := signStrs + [Pair(sorted[i], signParams[sorted[i]])];
    }
    PairsInOrder(signStrs, ticket, noncestr, timestamp, url);
    var hashsum := sha1(Join(signStrs, "&"));
    signature := Hex.Encode(hashsum);
    err := None;
  }

  /** The range loop that appends every key of the map, each once, in whatever order iteration yields them. */
  method MapKeys(m: map<string, string>) returns (keys: seq<string>)
    ensures multiset(keys) == multiset(m.Keys)
  {
    keys := [];
    var unvisited := m.Keys;
    while unvisited != {}
      invariant unvisited <= m.Keys
      invariant multiset(keys) + multiset(unvisited) == multiset(m.Keys)
      decreases |unvisited|
    {
      var key :| key in unvisited;
      assert multiset(unvisited) == multiset(unvisited - {key}) + multiset{key};
      keys := keys + [key];
      unvisited := unvisited - {key};
    }
  }

  /** The pairs built from the names in signed order are the pairs of the canonical string. */
  lemma PairsInOrder(signStrs: seq<string>, ticket: string, noncestr: string, timestamp: string, url: string)
    requires |signStrs| == 4
    requires forall j :: 0 <= j < 4 ==>
      signStrs[j] == Pair(SignedKeys[j], SignParams(ticket, noncestr, timestamp, url)[SignedKeys[j]])
    ensures Join(signStrs, "&") == Canonical(ticket, noncestr, timestamp, url)
  {
    var m := SignParams(ticket, noncestr, timestamp, url);
    assert m[TicketKey] == ticket && m[NoncestrKey] == noncestr && m[TimestampKey] == timestamp && m[UrlKey] == url;
    assert signStrs[0] == Pair(TicketKey, ticket);
    assert signStrs[1] == Pair(NoncestrKey, noncestr);
    assert signStrs[2] == Pair(TimestampKey, timestamp);
    assert signStrs[3] == Pair(UrlKey, url);
    assert signStrs == [Pair(TicketKey, ticket), Pair(NoncestrKey, noncestr), Pair(TimestampKey, timestamp), Pair(UrlKey, url)];
  }

  /** Sorting the four names of the parameter map always yields the signed order. */
  lemma SignedOrder(s: seq<string>, names: set<string>)
    requires names == {TicketKey, NoncestrKey, TimestampKey, UrlKey}
    requires Sorted(s) && multiset(s) == multiset(names)
    ensures s == SignedKeys
  {
    assert Sorted(SignedKeys);
    assert multiset(names) == multiset(SignedKeys);
    SortedUnique(s, SignedKeys);
  }

  /** The canonical string, spelled out: fixed names in ascending order, one `&` between pairs and none at either end. */
  lemma CanonicalLayout(ticket: string, noncestr: string, timestamp: string, url: string)
    ensures Canonical(ticket, noncestr, timestamp, url)
         == "jsapi_ticket=" + ticket + "&noncestr=" + noncestr + "&timestamp=" + timestamp + "&url=" + url
  {
    var a, b, c, d := Pair(TicketKey, ticket), Pair(NoncestrKey, noncestr), Pair(TimestampKey, timestamp), Pair(UrlKey, url);
    JoinFour(a, b, c, d, "&");
    assert a == "jsapi_ticket=" + ticket by { assert TicketKey + "=" == "jsapi_ticket="; }
    assert "&" + b == "&noncestr=" + noncestr by { assert "&" + NoncestrKey + "=" == "&noncestr="; }
    assert "&" + c == "&timestamp=" + timestamp by { assert "&" + TimestampKey + "=" == "&timestamp="; }
    assert "&" + d == "&url=" + url by { assert "&" + UrlKey + "=" == "&url="; }
  }

  /** `strings.Join` of four pieces. */
  lemma JoinFour(a: string, b: string, c: string, d: string, sep: string)
    ensures Join([a, b, c, d], sep) == a + (sep + b) + (sep + c) + (sep + d)
  {
    var parts := [a, b, c, d];
    assert parts[1..] == [b, c, d] && [b, c, d][1..] == [c, d] && [c, d][1..] == [d];
    assert Join([c, d], sep) == c + sep + d;
    assert Join([b, c, d], sep) == b + sep + (c + sep + d);
  }

  /** The signature is 40 lowercase hex digits, whatever the inputs. */
  lemma SignatureShape(sha1: string -> Hex.Digest, ticket: string, noncestr: string, timestamp: string, url: string)
    ensures var signature := Hex.Encode(sha1(Canonical(ticket, noncestr, timestamp, url)));
      |signature| == 40 && forall i :: 0 <= i < |signature| ==> Hex.IsDigit(signature[i])
  {
  }

  /** When no value contains `&`, splitting the canonical string on `&` gives back the four pairs. */
  lemma CanonicalSplits(ticket: string, noncestr: string, timestamp: string, url: string)
    requires '&' !in ticket && '&' !in noncestr && '&' !in timestamp && '&' !in url
    ensures Split(Canonical(ticket, noncestr, timestamp, url), '&')
         == [Pair(TicketKey, ticket), Pair(NoncestrKey, noncestr), Pair(TimestampKey, timestamp), Pair(UrlKey, url)]
  {
    var pairs := [Pair(TicketKey, ticket), Pair(NoncestrKey, noncestr), Pair(TimestampKey, timestamp), Pair(UrlKey, url)];
    forall i | 0 <= i < |pairs| ensures '&' !in pairs[i] {
    }
    SplitJoin(pairs, '&');
  }
}
