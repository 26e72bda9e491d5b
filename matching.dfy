/** Matching a driver message against a catalog: a case-insensitive substring
    filter on the entry names, then a tie-break on the table names. */
module ConstraintMatching {
  import opened Wrappers
  import opened Enumerable
  import opened Schema

  /** Case folding, restricted to ASCII letters. */
  function ToLowerAscii(c: char): char {
    if 'A' <= c <= 'Z' then (c as int + ('a' as int - 'A' as int)) as char else c
  }

  /** `s` with every ASCII letter in lower case. */
  function ToLower(s: string): (r: string)
    ensures |r| == |s|
    ensures forall k :: 0 <= k < |s| ==> r[k] == ToLowerAscii(s[k])
  {
    if s == [] then [] else [ToLowerAscii(s[0])] + ToLower(s[1..])
  }

  /** `s` begins with `prefix`, ignoring case. */
  predicate StartsWithIgnoreCase(s: string, prefix: string) {
    |prefix| <= |s| && forall k :: 0 <= k < |prefix| ==> ToLowerAscii(s[k]) == ToLowerAscii(prefix[k])
  }

  /** `value` occurs in `s` at position `k`, ignoring case. */
  ghost predicate OccursAt(s: string, value: string, k: int) {
    0 <= k <= |s| && StartsWithIgnoreCase(s[k..], value)
  }

  /** `s.Contains(value, StringComparison.OrdinalIgnoreCase)`: true exactly when
      `value` occurs somewhere in `s`, ignoring case (an empty `value` occurs everywhere). */
  function ContainsIgnoreCase(s: string, value: string): (r: bool)
    ensures r <==> exists k :: OccursAt(s, value, k)
    decreases |s|
  {
    if StartsWithIgnoreCase(s, value) then
      assert OccursAt(s, value, 0) by { assert s[0..] == s; }
      true
    else if s == [] then
      assert s[0..] == s;
      false
    else
      var rest := ContainsIgnoreCase(s[1..], value);
      assert forall k :: 1 <= k <= |s| ==> s[k..] == s[1..][k - 1..];
      assert rest ==> exists k :: OccursAt(s, value, k) by {
        if rest {
          var k :| OccursAt(s[1..], value, k);
          assert OccursAt(s, value, k + 1);
        }
      }
      assert (exists k :: OccursAt(s, value, k)) ==> rest by {
        if exists k :: OccursAt(s, value, k) {
          var k :| OccursAt(s, value, k);
          assert k != 0 by { assert s[0..] == s; }
          assert OccursAt(s[1..], value, k - 1);
        }
      }
      rest
  }

  /** Folding the message to lower case does not change what it contains. */
  lemma ContainsIgnoresCaseOfMessage(s: string, value: string)
    ensures ContainsIgnoreCase(ToLower(s), value) == ContainsIgnoreCase(s, value)
  {
    var t := ToLower(s);
    forall k | 0 <= k <= |s| ensures OccursAt(t, value, k) <==> OccursAt(s, value, k) {
      if |value| <= |s| - k {
        forall j | 0 <= j < |value| ensures ToLowerAscii(t[k..][j]) == ToLowerAscii(s[k..][j]) {
          assert t[k..][j] == t[k + j];
          assert s[k..][j] == s[k + j];
        }
      }
    }
    assert (exists k :: OccursAt(t, value, k)) ==> exists k :: OccursAt(s, value, k);
  }

  /** The entry-name filter and the table-name filter the matcher applies. */
  function NameOccurs(message: string): ConstraintDetails -> bool {
    (d: ConstraintDetails) => ContainsIgnoreCase(message, d.name)
  }

  function TableOccurs(message: string): ConstraintDetails -> bool {
    (d: ConstraintDetails) => ContainsIgnoreCase(message, d.schemaQualifiedTableName)
  }

  function NameAndTableOccur(message: string): ConstraintDetails -> bool {
    (d: ConstraintDetails) => ContainsIgnoreCase(message, d.name) && ContainsIgnoreCase(message, d.schemaQualifiedTableName)
  }

  /** The candidates: exactly the catalog entries whose name occurs in the
      message, ignoring case, kept in catalog order. */
  function Candidates(catalog: seq<ConstraintDetails>, message: string): (r: seq<ConstraintDetails>)
    ensures forall d :: d in r <==> d in catalog && ContainsIgnoreCase(message, d.name)
  {
    Where(catalog, NameOccurs(message))
  }

  /** Candidates keep catalog order: the filter distributes over concatenation. */
  lemma CandidatesKeepOrder(a: seq<ConstraintDetails>, b: seq<ConstraintDetails>, message: string)
    ensures Candidates(a + b, message) == Candidates(a, message) + Candidates(b, message)
  {
    WhereAppend(a, b, NameOccurs(message));
  }

  /** The matched entry: the only candidate when there is exactly one,
      otherwise the first candidate whose table name also occurs in the message. */
  function FindMatch(catalog: seq<ConstraintDetails>, message: string): (r: Option<ConstraintDetails>)
    ensures r.Some? ==> r.value in catalog && ContainsIgnoreCase(message, r.value.name)
  {
    var candidates := Candidates(catalog, message);
    if |candidates| == 1 then
      assert candidates[0] in candidates;
      Some(candidates[0])
    else
      FirstOrDefault(candidates, TableOccurs(message))
  }

  /** A catalog entry whose name is the only one occurring in the message is
      the match, whether or not its table name occurs too. */
  lemma {:induction false} SingleCandidateMatches(catalog: seq<ConstraintDetails>, message: string, k: int)
    requires 0 <= k < |catalog|
    requires ContainsIgnoreCase(message, catalog[k].name)
    requires forall j :: 0 <= j < |catalog| && j != k ==> !ContainsIgnoreCase(message, catalog[j].name)
    ensures Candidates(catalog, message) == [catalog[k]]
    ensures FindMatch(catalog, message) == Some(catalog[k])
  {
    assert catalog == catalog[..k] + [catalog[k]] + catalog[k + 1..];
    var before := Candidates(catalog[..k], message);
    var after := Candidates(catalog[k + 1..], message);
    forall d | d in catalog[..k] ensures !NameOccurs(message)(d) {
      var j :| 0 <= j < k && catalog[..k][j] == d;
      assert catalog[j] == d;
    }
    WhereNone(catalog[..k], NameOccurs(message));
    forall d | d in catalog[k + 1..] ensures !NameOccurs(message)(d) {
      var j :| 0 <= j < |catalog| - k - 1 && catalog[k + 1..][j] == d;
      assert catalog[k + 1 + j] == d;
    }
    WhereNone(catalog[k + 1..], NameOccurs(message));
    CandidatesKeepOrder(catalog[..k] + [catalog[k]], catalog[k + 1..], message);
    CandidatesKeepOrder(catalog[..k], [catalog[k]], message);
    assert Candidates([catalog[k]], message) == [catalog[k]] by {
      assert [catalog[k]][1..] == [];
    }
  }

  /** With zero or several candidates, the match is the first catalog entry
      whose name and table name both occur in the message; `None` when no
      entry qualifies. */
  lemma TieBreakIsFirstQualifying(catalog: seq<ConstraintDetails>, message: string)
    requires |Candidates(catalog, message)| != 1
    ensures FindMatch(catalog, message) == FirstOrDefault(catalog, NameAndTableOccur(message))
  {
    FirstOrDefaultOfWhere(catalog, NameOccurs(message), TableOccurs(message), NameAndTableOccur(message));
  }

  /** Matching does not depend on the case of the message. */
  lemma FindMatchIgnoresCase(catalog: seq<ConstraintDetails>, message: string)
    ensures FindMatch(catalog, ToLower(message)) == FindMatch(catalog, message)
  {
    var folded := ToLower(message);
    forall v: string ensures ContainsIgnoreCase(folded, v) == ContainsIgnoreCase(message, v) {
      ContainsIgnoresCaseOfMessage(message, v);
    }
    WhereCongruent(catalog, NameOccurs(folded), NameOccurs(message));
    FirstOrDefaultCongruent(Candidates(catalog, message), TableOccurs(folded), TableOccurs(message));
  }
}
