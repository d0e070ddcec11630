/** Object ids and the remote store's key scheme (BaseCommand.ts). */
module RemoteKeys {
  import opened Wrappers

  function Digit(d: nat): char
    requires d < 10
  {
    "0123456789"[d]
  }

  /** The number a string of decimal digits denotes, most significant first. */
  function DigitsValue(s: string): nat
    requires forall i | 0 <= i < |s| :: '0' <= s[i] <= '9'
  {
    if s == [] then 0
    else 10 * DigitsValue(s[..|s| - 1]) + (s[|s| - 1] as int - '0' as int)
  }

  /** Decimal rendering of a millisecond timestamp, as a template literal
      prints a non-negative integer: digits only, no leading zero, denoting n. */
  function DecimalString(n: nat): (s: string)
    ensures 1 <= |s|
    ensures n >= 10 ==> 2 <= |s|
    ensures forall i | 0 <= i < |s| :: '0' <= s[i] <= '9'
    ensures n > 0 ==> s[0] != '0'
    ensures DigitsValue(s) == n
  {
    if n < 10 then [Digit(n)]
    else
      var p := DecimalString(n / 10);
      var s := p + [Digit(n % 10)];
      assert s[..|s| - 1] == p;
      s
  }

  lemma DigitInjective(c: nat, d: nat)
    requires c < 10 && d < 10
    ensures Digit(c) == Digit(d) ==> c == d
  {
  }

  /** Distinct timestamps render differently. */
  lemma {:induction false} DecimalStringInjective(a: nat, b: nat)
    ensures DecimalString(a) == DecimalString(b) ==> a == b
  {
    var sa, sb := DecimalString(a), DecimalString(b);
    if sa == sb {
      if a < 10 || b < 10 {
        assert |sa| == 1 && |sb| == 1;
        DigitInjective(a, b);
      } else {
        var qa, ra, qb, rb := a / 10, a % 10, b / 10, b % 10;
        assert sa == DecimalString(qa) + [Digit(ra)];
        assert sb == DecimalString(qb) + [Digit(rb)];
        assert sa[|sa| - 1] == Digit(ra) && sb[|sb| - 1] == Digit(rb);
        DigitInjective(ra, rb);
        assert sa[..|sa| - 1] == DecimalString(qa);
        assert sb[..|sb| - 1] == DecimalString(qb);
        DecimalStringInjective(qa, qb);
        assert a == 10 * qa + ra && b == 10 * qb + rb;
      }
    }
  }

  /** The constructor's id rule: an explicit non-empty id is kept verbatim
      (`objectId || ...` treats the empty string as absent), otherwise the id
      is the user id, an underscore and the creation time in milliseconds. */
  function DefaultObjectId(explicit: Option<string>, userId: string, now: nat): (id: string)
    ensures explicit.Some? && explicit.value != "" ==> id == explicit.value
    ensures explicit.None? || explicit.value == "" ==> id == userId + "_" + DecimalString(now)
    ensures id != ""
  {
    if explicit.Some? && explicit.value != "" then explicit.value
    else userId + "_" + DecimalString(now)
  }

  /** Two generated ids of the same user differ when their timestamps differ. */
  lemma GeneratedIdsDiffer(userId: string, a: nat, b: nat)
    requires a != b
    ensures DefaultObjectId(None, userId, a) != DefaultObjectId(None, userId, b)
  {
    var p := userId + "_";
    if DefaultObjectId(None, userId, a) == DefaultObjectId(None, userId, b) {
      assert (p + DecimalString(a))[|p|..] == DecimalString(a);
      assert (p + DecimalString(b))[|p|..] == DecimalString(b);
      DecimalStringInjective(a, b);
    }
  }

  /** `drawings/{sessionId}/paths`: the session's namespace. */
  function Namespace(sessionId: string): string {
    "drawings/" + sessionId + "/paths"
  }

  /** `drawings/{sessionId}/paths/{objectId}`: the key every write and delete of
      a command targets. */
  function PathKey(sessionId: string, objectId: string): (key: string)
    ensures key == Namespace(sessionId) + "/" + objectId
  {
    "drawings/" + sessionId + "/paths/" + objectId
  }

  /** `key` is the namespace node itself or lies below it in the store's tree. */
  predicate Under(key: string, ns: string) {
    key == ns || (|ns| < |key| && key[..|ns| + 1] == ns + "/")
  }

  /** Within one session, the key determines the object id. */
  lemma PathKeyInjective(sessionId: string, a: string, b: string)
    ensures PathKey(sessionId, a) == PathKey(sessionId, b) ==> a == b
  {
    var p := Namespace(sessionId) + "/";
    if PathKey(sessionId, a) == PathKey(sessionId, b) {
      assert (p + a)[|p|..] == a;
      assert (p + b)[|p|..] == b;
    }
  }

  /** Every object key of a session lies in that session's namespace. */
  lemma PathKeyUnderNamespace(sessionId: string, objectId: string)
    ensures Under(PathKey(sessionId, objectId), Namespace(sessionId))
  {
    var ns := Namespace(sessionId);
    assert PathKey(sessionId, objectId)[..|ns| + 1] == ns + "/";
  }

  /** Removing a node of the store: the node and everything below it goes,
      every other entry stays as it was. */
  function DeleteTree<V>(m: map<string, V>, ns: string): (r: map<string, V>)
    ensures forall k :: k in r <==> k in m && !Under(k, ns)
    ensures forall k | k in r :: r[k] == m[k]
  {
    map k | k in m && !Under(k, ns) :: m[k]
  }
}
