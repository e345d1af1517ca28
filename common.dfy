/** Values shared by every module: Python-style results, dynamic values,
    insertion-ordered dictionaries and exceptions. */
module Common {

  datatype Option<+T> = None | Some(value: T)

  /** A dynamically typed Python value as it appears in tool arguments,
      tool results and JSON-like schemas. */
  datatype Value =
    | VNone
    | VBool(b: bool)
    | VInt(i: int)
    | VStr(s: string)
    | VList(items: seq<Value>)
    | VDict(entries: Dict<Value>)

  /** Python truthiness. */
  predicate Truthy(v: Value) {
    match v
    case VNone => false
    case VBool(b) => b
    case VInt(i) => i != 0
    case VStr(s) => s != ""
    case VList(items) => items != []
    case VDict(entries) => entries != []
  }

  /** The name Python reports as `type(v).__name__`. */
  function TypeName(v: Value): string {
    match v
    case VNone => "NoneType"
    case VBool(_) => "bool"
    case VInt(_) => "int"
    case VStr(_) => "str"
    case VList(_) => "list"
    case VDict(_) => "dict"
  }

  // ---------------------------------------------------------------------------
  // Insertion-ordered dictionaries with string keys
  // ---------------------------------------------------------------------------

  predicate UniqueKeys<V>(d: seq<(string, V)>) {
    forall i, j | 0 <= i < j < |d| :: d[i].0 != d[j].0
  }

  /** A Python `dict`: its entries in insertion order, no key twice. */
  type Dict<V> = d: seq<(string, V)> | UniqueKeys(d) witness []

  function Keys<V>(d: seq<(string, V)>): (ks: seq<string>)
    ensures |ks| == |d|
    ensures forall i | 0 <= i < |d| :: ks[i] == d[i].0
  {
    seq(|d|, i requires 0 <= i < |d| => d[i].0)
  }

  function Values<V>(d: seq<(string, V)>): (vs: seq<V>)
    ensures |vs| == |d|
    ensures forall i | 0 <= i < |d| :: vs[i] == d[i].1
  {
    seq(|d|, i requires 0 <= i < |d| => d[i].1)
  }

  predicate HasKey<V>(d: seq<(string, V)>, k: string) {
    exists i | 0 <= i < |d| :: d[i].0 == k
  }

  /** `d.get(k)`, with None for a missing key. */
  function Lookup<V>(d: seq<(string, V)>, k: string): (r: Option<V>)
    ensures r.None? <==> !HasKey(d, k)
  {
    if d == [] then None
    else if d[0].0 == k then Some(d[0].1)
    else
      assert HasKey(d, k) ==> HasKey(d[1..], k) by {
        if HasKey(d, k) {
          var i :| 0 <= i < |d| && d[i].0 == k;
          assert i != 0;
          assert d[1..][i - 1].0 == k;
        }
      }
      Lookup(d[1..], k)
  }

  /** A value `Lookup` finds is stored under its key. */
  lemma {:induction false} LookupEntry<V>(d: seq<(string, V)>, k: string) returns (i: nat)
    requires Lookup(d, k).Some?
    ensures i < |d| && d[i] == (k, Lookup(d, k).value)
  {
    if d[0].0 == k {
      i := 0;
    } else {
      var j := LookupEntry(d[1..], k);
      i := j + 1;
    }
  }

  /** In a dictionary, the entry with key `k` is the one `Lookup` finds. */
  lemma LookupAt<V>(d: Dict<V>, i: nat)
    requires i < |d|
    ensures Lookup(d, d[i].0) == Some(d[i].1)
  {
    if i > 0 {
      assert d[0].0 != d[i].0;
      var tail: Dict<V> := d[1..];
      LookupAt(tail, i - 1);
    }
  }

  /** `d.get(k, default)`. */
  function GetOr<V>(d: seq<(string, V)>, k: string, default: V): V {
    match Lookup(d, k)
    case Some(v) => v
    case None => default
  }

  function IndexOfKey<V>(d: seq<(string, V)>, k: string): (i: nat)
    requires HasKey(d, k)
    ensures i < |d| && d[i].0 == k
    ensures forall j | 0 <= j < i :: d[j].0 != k
  {
    if d[0].0 == k then 0
    else
      assert HasKey(d[1..], k) by {
        var j :| 0 <= j < |d| && d[j].0 == k;
        assert d[1..][j - 1].0 == k;
      }
      1 + IndexOfKey(d[1..], k)
  }

  /** The position `IndexOfKey` reports for a key is the key's position. */
  lemma IndexOfKeyAt<V>(d: Dict<V>, i: nat)
    requires i < |d|
    ensures HasKey(d, d[i].0) && IndexOfKey(d, d[i].0) == i
  {
  }

  /** A key found before the last entry has the same position in the
      prefix without that entry. */
  lemma IndexOfKeyPrefix<V>(d: Dict<V>, k: string)
    requires d != [] && HasKey(d[..|d| - 1], k)
    ensures HasKey(d, k) && IndexOfKey(d, k) < |d| - 1
    ensures IndexOfKey(d, k) == IndexOfKey(d[..|d| - 1], k)
  {
    var init := d[..|d| - 1];
    var j := IndexOfKey(init, k);
    assert d[j] == init[j];
    IndexOfKeyAt(d, j);
  }

  /** `d[k] = v`: an existing key keeps its position and takes the new value,
      a new key is appended. */
  function Put<V>(d: Dict<V>, k: string, v: V): (r: Dict<V>)
    ensures HasKey(d, k) ==> |r| == |d|
    ensures !HasKey(d, k) ==> r == d + [(k, v)]
    ensures Lookup(r, k) == Some(v)
    ensures forall k' | k' != k :: Lookup(r, k') == Lookup(d, k')
  {
    if HasKey(d, k) then
      var i := IndexOfKey(d, k);
      var r := d[i := (k, v)];
      assert Keys(r) == Keys(d);
      assert UniqueKeys(r);
      LookupAt(r, i);
      assert forall k' | k' != k :: Lookup(r, k') == Lookup(d, k') by {
        forall k' | k' != k ensures Lookup(r, k') == Lookup(d, k') {
          LookupSameKeysElsewhere(d, r, i, k');
        }
      }
      r
    else
      var r := d + [(k, v)];
      assert UniqueKeys(r) by {
        forall i, j | 0 <= i < j < |r| ensures r[i].0 != r[j].0 {
          if j == |d| {
            assert r[i] == d[i];
          }
        }
      }
      LookupAt(r, |d|);
      assert forall k' | k' != k :: Lookup(r, k') == Lookup(d, k') by {
        forall k' | k' != k ensures Lookup(r, k') == Lookup(d, k') {
          LookupAppend(d, (k, v), k');
        }
      }
      r
  }

  lemma LookupSameKeysElsewhere<V>(d: seq<(string, V)>, r: seq<(string, V)>, i: nat, k': string)
    requires i < |d| == |r|
    requires forall j | 0 <= j < |d| && j != i :: r[j] == d[j]
    requires r[i].0 == d[i].0 && d[i].0 != k'
    ensures Lookup(r, k') == Lookup(d, k')
  {
    if i > 0 && |d| > 0 {
      LookupSameKeysElsewhere(d[1..], r[1..], i - 1, k');
    } else if |d| > 0 {
      assert d[1..] == r[1..];
    }
  }

  lemma LookupAppend<V>(d: seq<(string, V)>, e: (string, V), k': string)
    requires e.0 != k'
    ensures Lookup(d + [e], k') == Lookup(d, k')
  {
    if d != [] {
      assert (d + [e])[1..] == d[1..] + [e];
      LookupAppend(d[1..], e, k');
    } else {
      assert (d + [e])[1..] == [];
    }
  }

  /** `del d[k]` / `d.pop(k)` on the remaining entries: every other entry
      keeps its order. */
  function Remove<V>(d: Dict<V>, k: string): (r: Dict<V>)
    ensures !HasKey(r, k)
    ensures forall k' | k' != k :: Lookup(r, k') == Lookup(d, k')
    ensures forall i | 0 <= i < |r| :: HasKey(d, r[i].0)
    ensures |r| <= |d|
  {
    if d == [] then []
    else
      var tail: Dict<V> := d[1..];
      var rest := Remove(tail, k);
      if d[0].0 == k then
        rest
      else
        HeadNotInTail(d);
        var r := [d[0]] + rest;
        assert UniqueKeys(r) by {
          forall j | 0 <= j < |rest| ensures rest[j].0 != d[0].0 {
            assert HasKey(tail, rest[j].0);
          }
        }
        assert r[1..] == rest;
        assert forall i | 0 < i < |r| :: HasKey(d, r[i].0) by {
          forall i | 0 < i < |r| ensures HasKey(d, r[i].0) {
            assert HasKey(tail, rest[i - 1].0);
            var m :| 0 <= m < |tail| && tail[m].0 == rest[i - 1].0;
            assert d[m + 1].0 == r[i].0;
          }
        }
        r
  }

  /** The first key of a dictionary does not occur again. */
  lemma HeadNotInTail<V>(d: Dict<V>)
    requires d != []
    ensures !HasKey(d[1..], d[0].0)
  {
    forall m | 0 <= m < |d| - 1 ensures d[1..][m].0 != d[0].0 {
      assert d[1..][m] == d[m + 1];
    }
  }

  /** Removing an absent key changes nothing. */
  lemma {:induction false} RemoveAbsent<V>(d: Dict<V>, k: string)
    requires !HasKey(d, k)
    ensures Remove(d, k) == d
  {
    if d != [] {
      var tail: Dict<V> := d[1..];
      RemoveAbsent(tail, k);
    }
  }

  /** Removing the first key leaves the rest of the entries. */
  lemma RemoveHead<V>(d: Dict<V>)
    requires d != []
    ensures Remove(d, d[0].0) == d[1..]
  {
    HeadNotInTail(d);
    RemoveAbsent(d[1..], d[0].0);
  }

  /** `{k: v for k, v in d.items() if v is not None}`. */
  function DropNone(d: Dict<Value>): (r: Dict<Value>)
    ensures forall k :: Lookup(r, k) == (if Lookup(d, k) == Some(VNone) then None else Lookup(d, k))
    ensures forall i | 0 <= i < |r| :: r[i].1 != VNone
    ensures forall i | 0 <= i < |r| :: HasKey(d, r[i].0)
    ensures |r| <= |d|
  {
    if d == [] then []
    else
      var tail: Dict<Value> := d[1..];
      var rest := DropNone(tail);
      HeadNotInTail(d);
      assert forall i | 0 <= i < |rest| :: HasKey(d, rest[i].0) by {
        forall i | 0 <= i < |rest| ensures HasKey(d, rest[i].0) {
          var m :| 0 <= m < |tail| && tail[m].0 == rest[i].0;
          assert d[m + 1].0 == rest[i].0;
        }
      }
      if d[0].1 == VNone then
        rest
      else
        var r := [d[0]] + rest;
        assert UniqueKeys(r) by {
          forall j | 0 <= j < |rest| ensures rest[j].0 != d[0].0 {
            assert HasKey(tail, rest[j].0);
          }
        }
        assert r[1..] == rest;
        r
  }

  /** A dictionary with its values converted one by one. */
  function MapValues<V, W>(d: Dict<V>, f: V -> W): (r: Dict<W>)
    ensures |r| == |d|
    ensures forall i | 0 <= i < |d| :: r[i] == (d[i].0, f(d[i].1))
  {
    var r := seq(|d|, i requires 0 <= i < |d| => (d[i].0, f(d[i].1)));
    assert UniqueKeys(r) by {
      forall i, j | 0 <= i < j < |r| ensures r[i].0 != r[j].0 {
        assert r[i].0 == d[i].0 && r[j].0 == d[j].0;
      }
    }
    r
  }

  // ---------------------------------------------------------------------------
  // Exceptions
  // ---------------------------------------------------------------------------

  datatype ExcKind =
    | ValueError
    | KeyError
    | TypeError
    | AttributeError
    | RuntimeError
    | ImportError
    | JSONDecodeError
    | ValidationError
    | IOError
    | GenericException
    | OtherError(name: string)

  /** A raised Python exception: its class and the message it was built with. */
  datatype Exc = Exc(kind: ExcKind, message: string)

  /** The quote Python's `repr` of a string uses: a double quote when the
      text holds a single quote and no double quote, a single quote
      otherwise. */
  function ReprQuote(s: string): (q: char)
    ensures q == '"' || q == '\''
    ensures q == '"' <==> '\'' in s && '"' !in s
  {
    if '\'' in s && '"' !in s then '"' else '\''
  }

  const HexDigits: string := "0123456789abcdef"

  /** A character `repr` writes as it is between quotes `q`. */
  predicate ReprPlain(c: char, q: char) {
    c != '\\' && c != q && c >= ' ' && c as int != 0x7f
  }

  /** How `repr` writes one character between quotes `q`: backslash, the
      quote and the three common controls as two-character escapes, every
      other ASCII control as `\xNN` in lower-case hex. */
  function ReprChar(c: char, q: char): (r: string)
    ensures ReprPlain(c, q) <==> r == [c]
    ensures !ReprPlain(c, q) ==> 2 <= |r| <= 4 && r[0] == '\\'
  {
    if c == '\\' then "\\\\"
    else if c == q then ['\\', q]
    else if c == '\n' then "\\n"
    else if c == '\r' then "\\r"
    else if c == '\t' then "\\t"
    else if c < ' ' || c as int == 0x7f then "\\x" + [HexDigits[c as int / 16], HexDigits[c as int % 16]]
    else [c]
  }

  /** The text between `repr`'s quotes. */
  function ReprBody(s: string, q: char): string {
    if s == [] then [] else ReprChar(s[0], q) + ReprBody(s[1..], q)
  }

  /** Python's `repr` of a string. */
  function QuoteRepr(s: string): (r: string)
    ensures |r| >= 2 && r[0] == r[|r| - 1] == ReprQuote(s)
    ensures (forall i :: 0 <= i < |s| ==> ReprPlain(s[i], ReprQuote(s))) ==> r == [r[0]] + s + [r[0]]
    ensures Unescape(r[1..|r| - 1]) == Some(s)
  {
    var q := ReprQuote(s);
    ReprBodyPlain(s, q);
    ReprRoundTrip(s, q);
    [q] + ReprBody(s, q) + [q]
  }

  /** Text of plain characters is written unchanged. */
  lemma {:induction false} ReprBodyPlain(s: string, q: char)
    ensures (forall i :: 0 <= i < |s| ==> ReprPlain(s[i], q)) ==> ReprBody(s, q) == s
  {
    if s != [] && forall i :: 0 <= i < |s| ==> ReprPlain(s[i], q) {
      assert ReprPlain(s[0], q);
      assert forall i :: 0 <= i < |s[1..]| ==> ReprPlain(s[1..][i], q) by {
        forall i | 0 <= i < |s[1..]| ensures ReprPlain(s[1..][i], q) {
          assert s[1..][i] == s[i + 1];
        }
      }
      ReprBodyPlain(s[1..], q);
      assert s == [s[0]] + s[1..];
    }
  }

  /** `repr` of a concatenation is the concatenation of the bodies. */
  lemma {:induction false} ReprBodyAppend(a: string, b: string, q: char)
    ensures ReprBody(a + b, q) == ReprBody(a, q) + ReprBody(b, q)
  {
    if a == [] {
      assert a + b == b;
    } else {
      assert (a + b)[0] == a[0] && (a + b)[1..] == a[1..] + b;
      ReprBodyAppend(a[1..], b, q);
    }
  }

  /** The value of a lower-case hex digit. */
  function HexValue(d: char): Option<nat> {
    if '0' <= d <= '9' then Some(d as int - '0' as int)
    else if 'a' <= d <= 'f' then Some(d as int - 'a' as int + 10)
    else None
  }

  /** Reading escapes back: the inverse of `ReprBody`, `None` on text no
      `repr` writes. */
  function Unescape(t: string): Option<string>
    decreases |t|
  {
    if t == [] then Some([])
    else if t[0] != '\\' then PrependChar(t[0], Unescape(t[1..]))
    else if |t| < 2 then None
    else if t[1] == '\\' || t[1] == '\'' || t[1] == '"' then PrependChar(t[1], Unescape(t[2..]))
    else if t[1] == 'n' then PrependChar('\n', Unescape(t[2..]))
    else if t[1] == 'r' then PrependChar('\r', Unescape(t[2..]))
    else if t[1] == 't' then PrependChar('\t', Unescape(t[2..]))
    else if t[1] == 'x' && |t| >= 4 && HexValue(t[2]).Some? && HexValue(t[3]).Some? then
      PrependChar((16 * HexValue(t[2]).value + HexValue(t[3]).value) as char, Unescape(t[4..]))
    else None
  }

  function PrependChar(c: char, rest: Option<string>): Option<string> {
    if rest.Some? then Some([c] + rest.value) else None
  }

  /** Every character's escape reads back as that character. */
  lemma ReprCharRoundTrip(c: char, q: char, rest: string)
    requires q == '"' || q == '\''
    ensures Unescape(ReprChar(c, q) + rest) == PrependChar(c, Unescape(rest))
  {
    var t := ReprChar(c, q) + rest;
    if ReprPlain(c, q) {
      assert t[0] == c && t[1..] == rest;
    } else if c < ' ' || c as int == 0x7f {
      if c != '\n' && c != '\r' && c != '\t' {
        var hi, lo := c as int / 16, c as int % 16;
        assert t[..4] == "\\x" + [HexDigits[hi], HexDigits[lo]] && t[4..] == rest;
        assert HexValue(HexDigits[hi]) == Some(hi);
        assert HexValue(HexDigits[lo]) == Some(lo);
        assert (16 * hi + lo) as char == c;
      } else {
        assert t[2..] == rest;
      }
    } else {
      assert t[2..] == rest;
    }
  }

  /** `Unescape` undoes `ReprBody`: the body of a `repr` determines the string. */
  lemma {:induction false} ReprRoundTrip(s: string, q: char)
    requires q == '"' || q == '\''
    ensures Unescape(ReprBody(s, q)) == Some(s)
  {
    if s != [] {
      ReprCharRoundTrip(s[0], q, ReprBody(s[1..], q));
      ReprRoundTrip(s[1..], q);
      assert [s[0]] + s[1..] == s;
    }
  }

  /** `str(e)`: a KeyError shows the repr of its argument, every other
      exception its message. */
  function Str(e: Exc): string {
    if e.kind == KeyError then QuoteRepr(e.message) else e.message
  }

  datatype Result<+T> = Ok(value: T) | Err(error: Exc) {
    predicate IsFailure() { Err? }
    function PropagateFailure<U>(): Result<U>
      requires Err?
    {
      Err(error)
    }
    function Extract(): T
      requires Ok?
    {
      value
    }
  }
}
