/**
 * Request validators (src/utils/api.ts): the version-4 UUID test and the invoice-status test.
 * The UUID regular expression is anchored, has no alternation and fixed repetition counts, so
 * it is a sequence of (character class, count) pieces matched left to right; the `i` flag
 * compares ASCII letters case-insensitively.
 */
module ApiValidation {
  import opened Wrappers
  import opened Strings
  import opened Domain

  /** A character class of the pattern, written in lower case. */
  datatype CharClass = Hex | Exactly(c: char) | OneOf(cs: seq<char>)

  predicate IsLowerHex(c: char) { '0' <= c <= '9' || 'a' <= c <= 'f' }

  /** Case-insensitive class membership: the character is folded to lower case first. */
  predicate ClassMatches(cls: CharClass, c: char) {
    var l := LowerChar(c);
    match cls
    case Hex => IsLowerHex(l)
    case Exactly(d) => l == d
    case OneOf(cs) => l in cs
  }

  datatype Piece = Piece(cls: CharClass, count: nat)

  /** `^[0-9a-f]{8}-[0-9a-f]{4}-4[0-9a-f]{3}-[89ab][0-9a-f]{3}-[0-9a-f]{12}$`. */
  const UuidPattern: seq<Piece> := [
    Piece(Hex, 8), Piece(Exactly('-'), 1),
    Piece(Hex, 4), Piece(Exactly('-'), 1),
    Piece(Exactly('4'), 1), Piece(Hex, 3), Piece(Exactly('-'), 1),
    Piece(OneOf("89ab"), 1), Piece(Hex, 3), Piece(Exactly('-'), 1),
    Piece(Hex, 12)]

  function PatternLength(p: seq<Piece>): nat {
    if p == [] then 0 else p[0].count + PatternLength(p[1..])
  }

  /** The whole string matches the whole pattern (both anchors). */
  predicate MatchAll(s: string, p: seq<Piece>) decreases |p| {
    if p == [] then s == []
    else
      |s| >= p[0].count
      && (forall i :: 0 <= i < p[0].count ==> ClassMatches(p[0].cls, s[i]))
      && MatchAll(s[p[0].count..], p[1..])
  }

  function IsValidUUID(u: string): bool { MatchAll(u, UuidPattern) }

  /** The class the pattern demands at position `i`. */
  function ClassAt(p: seq<Piece>, i: nat): CharClass
    requires i < PatternLength(p)
    decreases |p|
  {
    if i < p[0].count then p[0].cls else ClassAt(p[1..], i - p[0].count)
  }

  /** A fixed-count pattern matches exactly the strings of its length with each position in class. */
  lemma {:induction false} MatchAllPositional(s: string, p: seq<Piece>)
    ensures MatchAll(s, p) <==>
      |s| == PatternLength(p) && forall i :: 0 <= i < |s| ==> ClassMatches(ClassAt(p, i), s[i])
    decreases |p|
  {
    if p != [] {
      var n := p[0].count;
      if |s| >= n {
        MatchAllPositional(s[n..], p[1..]);
        if |s| == PatternLength(p) && forall i :: 0 <= i < |s| ==> ClassMatches(ClassAt(p, i), s[i]) {
          forall i | 0 <= i < |s[n..]| ensures ClassMatches(ClassAt(p[1..], i), s[n..][i]) {
            assert ClassAt(p, i + n) == ClassAt(p[1..], i);
          }
        }
        if MatchAll(s, p) {
          forall i | 0 <= i < |s| ensures ClassMatches(ClassAt(p, i), s[i]) {
            if i >= n {
              assert s[i] == s[n..][i - n];
            }
          }
        }
      }
    }
  }

  /** The class at each position of a UUID, by the groups 8-4-4-4-12. */
  function UuidClass(i: nat): CharClass {
    if i == 8 || i == 13 || i == 18 || i == 23 then Exactly('-')
    else if i == 14 then Exactly('4')
    else if i == 19 then OneOf("89ab")
    else Hex
  }

  /** The last four pieces, from position 20: hex, a hyphen and twelve hex digits. */
  lemma UuidClassesFrom20()
    ensures PatternLength(UuidPattern[8..]) == 16
    ensures forall j :: 0 <= j < 16 ==> ClassAt(UuidPattern[8..], j) == UuidClass(j + 20)
  {
    var p := UuidPattern;
    assert PatternLength(p[10..]) == 12;
    assert PatternLength(p[9..]) == 13;
    forall j | 0 <= j < 16 ensures ClassAt(p[8..], j) == UuidClass(j + 20) {
      if j >= 3 { assert ClassAt(p[8..], j) == ClassAt(p[9..], j - 3); }
      if j >= 4 { assert ClassAt(p[9..], j - 3) == ClassAt(p[10..], j - 4); }
    }
  }

  /** The pieces from the version digit at position 14 on. */
  lemma UuidClassesFrom14()
    ensures PatternLength(UuidPattern[4..]) == 22
    ensures forall j :: 0 <= j < 22 ==> ClassAt(UuidPattern[4..], j) == UuidClass(j + 14)
  {
    var p := UuidPattern;
    UuidClassesFrom20();
    assert PatternLength(p[7..]) == 17;
    assert PatternLength(p[6..]) == 18;
    assert PatternLength(p[5..]) == 21;
    forall j | 0 <= j < 22 ensures ClassAt(p[4..], j) == UuidClass(j + 14) {
      if j >= 1 { assert ClassAt(p[4..], j) == ClassAt(p[5..], j - 1); }
      if j >= 4 { assert ClassAt(p[5..], j - 1) == ClassAt(p[6..], j - 4); }
      if j >= 5 { assert ClassAt(p[6..], j - 4) == ClassAt(p[7..], j - 5); }
      if j >= 6 { assert ClassAt(p[7..], j - 5) == ClassAt(p[8..], j - 6); }
    }
  }

  lemma UuidPatternClasses()
    ensures PatternLength(UuidPattern) == 36
    ensures forall i :: 0 <= i < 36 ==> ClassAt(UuidPattern, i) == UuidClass(i)
  {
    var p := UuidPattern;
    UuidClassesFrom14();
    assert PatternLength(p[3..]) == 23;
    assert PatternLength(p[2..]) == 27;
    assert PatternLength(p[1..]) == 28;
    forall i | 0 <= i < 36 ensures ClassAt(p, i) == UuidClass(i) {
      if i >= 8 { assert ClassAt(p, i) == ClassAt(p[1..], i - 8); }
      if i >= 9 { assert ClassAt(p[1..], i - 8) == ClassAt(p[2..], i - 9); }
      if i >= 13 { assert ClassAt(p[2..], i - 9) == ClassAt(p[3..], i - 13); }
      if i >= 14 { assert ClassAt(p[3..], i - 13) == ClassAt(p[4..], i - 14); }
    }
  }

  /**
   * Exactly 36 characters: hex groups of 8, 4, 4, 4 and 12 separated by hyphens, the third group
   * starting with the version digit 4 and the fourth with a variant digit 8, 9, a or b (sections
   * 4.1.3 and 4.1.1 of RFC 4122), hex letters in either case.
   */
  lemma IsValidUUIDShape(u: string)
    ensures IsValidUUID(u) <==>
      |u| == 36
      && u[8] == '-' && u[13] == '-' && u[18] == '-' && u[23] == '-'
      && u[14] == '4'
      && LowerChar(u[19]) in "89ab"
      && (forall i :: (0 <= i < 8 || 9 <= i < 13 || 15 <= i < 18 || 20 <= i < 23 || 24 <= i < 36) ==>
            IsLowerHex(LowerChar(u[i])))
  {
    MatchAllPositional(u, UuidPattern);
    UuidPatternClasses();
    if |u| == 36 {
      assert (forall i :: 0 <= i < 36 ==> ClassMatches(ClassAt(UuidPattern, i), u[i])) <==> UuidPositions(u);
      UuidPositionsShape(u);
    }
  }

  /** Each of the 36 characters is in the class of its position. */
  predicate UuidPositions(u: string)
    requires |u| == 36
  {
    forall i :: 0 <= i < 36 ==> ClassMatches(UuidClass(i), u[i])
  }

  lemma UuidPositionsShape(u: string)
    requires |u| == 36
    ensures UuidPositions(u) <==>
      && u[8] == '-' && u[13] == '-' && u[18] == '-' && u[23] == '-'
      && u[14] == '4'
      && LowerChar(u[19]) in "89ab"
      && (forall i :: (0 <= i < 8 || 9 <= i < 13 || 15 <= i < 18 || 20 <= i < 23 || 24 <= i < 36) ==>
            IsLowerHex(LowerChar(u[i])))
  {
    if UuidPositions(u) {
      assert ClassMatches(UuidClass(8), u[8]) && ClassMatches(UuidClass(13), u[13]);
      assert ClassMatches(UuidClass(18), u[18]) && ClassMatches(UuidClass(23), u[23]);
      assert ClassMatches(UuidClass(14), u[14]) && ClassMatches(UuidClass(19), u[19]);
      forall i | 0 <= i < 8 || 9 <= i < 13 || 15 <= i < 18 || 20 <= i < 23 || 24 <= i < 36
        ensures IsLowerHex(LowerChar(u[i]))
      {
        assert ClassMatches(UuidClass(i), u[i]);
      }
    }
  }

  /** Matching ignores case: a string and its lower-cased form are accepted alike. */
  lemma {:induction false} MatchAllIgnoresCase(s: string, p: seq<Piece>)
    ensures MatchAll(s, p) <==> MatchAll(ToLower(s), p)
    decreases |p|
  {
    if p != [] {
      var n := p[0].count;
      var l := ToLower(s);
      forall i | 0 <= i < |s| ensures LowerChar(l[i]) == LowerChar(s[i]) {}
      if |s| >= n {
        MatchAllIgnoresCase(s[n..], p[1..]);
        assert ToLower(s[n..]) == l[n..];
      }
    }
  }

  lemma UuidIgnoresCase(u: string)
    ensures IsValidUUID(u) <==> IsValidUUID(ToLower(u))
  {
    MatchAllIgnoresCase(u, UuidPattern);
  }

  const ValidStatuses: seq<string> := ["paid", "pending", "draft", "overdue"]

  function IsValidInvoiceStatus(status: string): bool { status in ValidStatuses }

  function ParseStatus(status: string): (r: Option<Status>)
    ensures r.Some? ==> StatusName(r.value) == status
  {
    if status == "paid" then Some(Paid)
    else if status == "pending" then Some(Pending)
    else if status == "draft" then Some(Draft)
    else if status == "overdue" then Some(Overdue)
    else None
  }

  /** The valid statuses are exactly the wire spellings of the four statuses, and they parse back. */
  lemma ValidStatusIffName(status: string)
    ensures IsValidInvoiceStatus(status) <==> exists s :: StatusName(s) == status
    ensures IsValidInvoiceStatus(status) <==> ParseStatus(status).Some?
  {
    if IsValidInvoiceStatus(status) {
      var k :| 0 <= k < 4 && ValidStatuses[k] == status;
      if k == 0 { assert StatusName(Paid) == status; }
      else if k == 1 { assert StatusName(Pending) == status; }
      else if k == 2 { assert StatusName(Draft) == status; }
      else { assert StatusName(Overdue) == status; }
    }
    if exists s :: StatusName(s) == status {
      var s :| StatusName(s) == status;
      match s
      case Paid => assert status == ValidStatuses[0];
      case Pending => assert status == ValidStatuses[1];
      case Draft => assert status == ValidStatuses[2];
      case Overdue => assert status == ValidStatuses[3];
    }
  }

  lemma ParseStatusName(s: Status)
    ensures ParseStatus(StatusName(s)) == Some(s)
  {
  }
}
