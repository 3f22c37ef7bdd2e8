/** String helpers: lower-casing (`toLowerCase()` in JavaScript, `lower()` in
    Python, both restricted here to ASCII letters), substring search
    (`includes`), decimal rendering of naturals and Python truthiness of an
    optional string. */
module Text {
  import opened Wrappers

  /** Lower-cases one ASCII letter; every other character is unchanged. */
  function LowerChar(c: char): (r: char)
    ensures 'A' <= c <= 'Z' ==> r as int == c as int + 32
    ensures !('A' <= c <= 'Z') ==> r == c
    ensures !('A' <= r <= 'Z')
  {
    if 'A' <= c <= 'Z' then (c as int + 32) as char else c
  }

  function ToLower(s: string): (r: string)
    ensures |r| == |s|
    ensures forall i :: 0 <= i < |s| ==> r[i] == LowerChar(s[i])
    decreases |s|
  {
    if |s| == 0 then "" else [LowerChar(s[0])] + ToLower(s[1..])
  }

  /** Lower-casing is idempotent. */
  lemma ToLowerIdempotent(s: string)
    ensures ToLower(ToLower(s)) == ToLower(s)
  {
  }

  predicate StartsWith(s: string, prefix: string) {
    |prefix| <= |s| && s[..|prefix|] == prefix
  }

  /** `s.includes(q)`: `q` occurs in `s` as a contiguous block. */
  predicate Includes(s: string, q: string)
    decreases |s|
  {
    StartsWith(s, q) || (|s| > 0 && Includes(s[1..], q))
  }

  /** `q` occurs in `s` starting at position `i`. */
  predicate OccursAt(s: string, q: string, i: int) {
    0 <= i && i + |q| <= |s| && s[i..i + |q|] == q
  }

  /** An occurrence in the tail is an occurrence one position later. */
  lemma OccursAtTail(s: string, q: string, i: int)
    requires |s| > 0 && i >= 0
    ensures OccursAt(s[1..], q, i) <==> OccursAt(s, q, i + 1)
  {
    if 0 <= i && i + |q| <= |s| - 1 {
      assert s[1..][i..i + |q|] == s[i + 1..i + 1 + |q|];
    }
  }

  /** `Includes` agrees with the positional definition of a substring. */
  lemma {:induction false} IncludesIffOccurs(s: string, q: string)
    ensures Includes(s, q) <==> exists i :: OccursAt(s, q, i)
    decreases |s|
  {
    if StartsWith(s, q) {
      assert OccursAt(s, q, 0);
    } else {
      assert !OccursAt(s, q, 0);
      if |s| > 0 {
        IncludesIffOccurs(s[1..], q);
        if Includes(s[1..], q) {
          var i :| OccursAt(s[1..], q, i);
          OccursAtTail(s, q, i);
        } else {
          forall i | OccursAt(s, q, i)
            ensures false
          {
            OccursAtTail(s, q, i - 1);
          }
        }
      } else {
        forall i | OccursAt(s, q, i)
          ensures false
        {
        }
      }
    }
  }

  /** The empty string occurs in every string. */
  lemma EmptyIncluded(s: string)
    ensures Includes(s, "")
  {
    assert StartsWith(s, "");
  }

  /** Every string occurs in itself. */
  lemma SelfIncluded(s: string)
    ensures Includes(s, s)
  {
    assert StartsWith(s, s);
  }

  /** Case-insensitive containment: both sides are lower-cased first, as
      `a.toLowerCase().includes(q.toLowerCase())` does. */
  predicate IncludesIgnoringCase(s: string, q: string) {
    Includes(ToLower(s), ToLower(q))
  }

  /** Python truthiness of an optional string: `None` and `""` are falsy. */
  predicate Truthy(s: Option<string>) {
    s.Some? && s.value != ""
  }

  function DigitChar(d: nat): (c: char)
    requires d < 10
    ensures '0' <= c <= '9'
  {
    ('0' as int + d) as char
  }

  /** Decimal rendering of a natural number without leading zeros, as
      JavaScript's template interpolation prints an integer. */
  function NatToString(n: nat): (r: string)
    ensures |r| > 0
    ensures forall i :: 0 <= i < |r| ==> '0' <= r[i] <= '9'
    decreases n
  {
    if n < 10 then [DigitChar(n)] else NatToString(n / 10) + [DigitChar(n % 10)]
  }
}
