/** The SQL text the allocator sends to MySQL: the self-referential UPDATE that
    advances the sequence row, and the read-back query. */
module IncrementerSql {
  import opened Wrappers

  /** The query that reads back the value the UPDATE assigned. */
  const ValueSql: string := "select last_insert_id()"

  predicate IsDigit(ch: char) {
    '0' <= ch <= '9'
  }

  function DigitChar(d: nat): (ch: char)
    requires d < 10
    ensures IsDigit(ch) && ch as int - '0' as int == d
  {
    ('0' as int + d) as char
  }

  function DigitValue(ch: char): nat
    requires IsDigit(ch)
  {
    ch as int - '0' as int
  }

  /** The decimal digits of `n`, most significant first, with no leading zero. */
  function Digits(n: nat): (s: string)
    ensures |s| >= 1
    ensures forall i :: 0 <= i < |s| ==> IsDigit(s[i])
    ensures (s[0] == '0') == (n == 0)
  {
    if n < 10 then [DigitChar(n)] else Digits(n / 10) + [DigitChar(n % 10)]
  }

  /** Java's rendering of an `int` in string concatenation. */
  function IntString(i: int): string {
    if i < 0 then "-" + Digits(-i) else Digits(i)
  }

  predicate AllDigits(s: string) {
    forall i :: 0 <= i < |s| ==> IsDigit(s[i])
  }

  function ParseDigits(s: string): nat
    requires AllDigits(s)
  {
    if s == [] then 0 else ParseDigits(s[..|s| - 1]) * 10 + DigitValue(s[|s| - 1])
  }

  /** Reads back an integer literal as `IntString` writes it; None when `s` is not one. */
  function ParseInt(s: string): Option<int> {
    if |s| >= 2 && s[0] == '-' && AllDigits(s[1..]) then Some(0 - ParseDigits(s[1..]))
    else if |s| >= 1 && AllDigits(s) then Some(ParseDigits(s))
    else None
  }

  lemma {:induction false} DigitsRoundTrip(n: nat)
    ensures ParseDigits(Digits(n)) == n
  {
    if n >= 10 {
      var d := Digits(n / 10);
      var s := Digits(n);
      assert s == d + [DigitChar(n % 10)];
      assert s[..|s| - 1] == d;
      DigitsRoundTrip(n / 10);
    }
  }

  /** Parsing inverts the rendering of every integer. */
  lemma IntStringRoundTrip(i: int)
    ensures ParseInt(IntString(i)) == Some(i)
  {
    var s := IntString(i);
    if i < 0 {
      var d := Digits(-i);
      assert s == "-" + d;
      assert s[0] == '-' && s[1..] == d;
      assert AllDigits(d);
      DigitsRoundTrip(-i);
    } else {
      assert s == Digits(i);
      assert AllDigits(s) && IsDigit(s[0]);
      DigitsRoundTrip(i);
    }
  }

  /** The part of the UPDATE that precedes the cache size. */
  function UpdatePrefix(incrementerName: string, columnName: string): string {
    "update " + UpdateTarget(incrementerName, columnName)
  }

  /** `T set C = last_insert_id(C + `, the text between `update ` and the cache size. */
  function UpdateTarget(incrementerName: string, columnName: string): string {
    incrementerName + " set " + columnName + " = last_insert_id(" + columnName + " + "
  }

  /** The WHERE clause: a comparison on the key column itself, which MySQL's safe
      update mode accepts, and which matches every row holding a positive value. */
  function WhereClause(columnName: string): string {
    " where " + columnName + " > 0"
  }

  /** The part of the UPDATE that follows the cache size. */
  function UpdateSuffix(columnName: string): string {
    ")" + WhereClause(columnName)
  }

  /** `update T set C = last_insert_id(C + k) where C > 0`. */
  function UpdateStatement(incrementerName: string, columnName: string, cacheSize: int): string {
    UpdatePrefix(incrementerName, columnName) + IntString(cacheSize) + UpdateSuffix(columnName)
  }

  /** The statement always ends with a WHERE clause on the configured column, whatever
      the table, the column and the cache size, so it is never an unqualified update. */
  lemma UpdateIsKeyQualified(incrementerName: string, columnName: string, cacheSize: int)
    ensures var s, w := UpdateStatement(incrementerName, columnName, cacheSize), WhereClause(columnName);
      |w| <= |s| && s[|s| - |w|..] == w && s[..7] == "update "
  {
    var u, x, w := UpdateTarget(incrementerName, columnName), IntString(cacheSize), WhereClause(columnName);
    var s, a := UpdateStatement(incrementerName, columnName, cacheSize), "update " + u + x;
    Associative(a, ")", w);
    EndsWith(a + ")", w);
    Associative("update " + u, x, ")" + w);
    Associative("update ", u, x + (")" + w));
    StartsWith("update ", u + (x + (")" + w)));
  }

  lemma Associative(a: string, b: string, c: string)
    ensures a + b + c == a + (b + c)
  {
  }

  lemma StartsWith(a: string, b: string)
    ensures (a + b)[..|a|] == a
  {
  }

  lemma EndsWith(a: string, b: string)
    ensures (a + b)[|a + b| - |b|..] == b
  {
  }

  /** Text framed by the same prefix and suffix is equal when the framed texts are. */
  lemma SameFrame(p: string, x1: string, x2: string, t: string)
    requires p + x1 + t == p + x2 + t
    ensures x1 == x2
  {
    var s := p + x1 + t;
    assert s == p + (x1 + t) && s == p + (x2 + t);
    assert s[|p|..] == x1 + t == x2 + t;
    assert |x1| == |x2|;
    assert x1 == (x1 + t)[..|x1|];
  }

  /** The text fixes the increment: two statements for the same table and column are
      equal only when they advance the row by the same amount. */
  lemma UpdateDeterminesIncrement(incrementerName: string, columnName: string, k1: int, k2: int)
    requires UpdateStatement(incrementerName, columnName, k1) == UpdateStatement(incrementerName, columnName, k2)
    ensures k1 == k2
  {
    SameFrame(UpdatePrefix(incrementerName, columnName), IntString(k1), IntString(k2), UpdateSuffix(columnName));
    IntStringRoundTrip(k1);
    IntStringRoundTrip(k2);
  }
}
