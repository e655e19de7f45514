/**
 * A user account: names and degrees, email, avatar, verification and
 * permission flags, group memberships and role.
 */
module Users {
  import opened Wrappers

  /** The characters PHP's `trim` strips by default. */
  predicate IsTrimmed(c: char) {
    c == ' ' || c == '\t' || c == '\n' || c == '\r' || c == '\0' || c == '\U{B}'
  }

  /** `s` without its leading trimmed characters. */
  function TrimLeft(s: string): (r: string)
    ensures |r| <= |s| && r == s[|s| - |r|..]
    ensures r == [] || !IsTrimmed(r[0])
    ensures forall i :: 0 <= i < |s| - |r| ==> IsTrimmed(s[i])
  {
    if s != [] && IsTrimmed(s[0]) then
      var r := TrimLeft(s[1..]);
      assert s[1..][|s| - 1 - |r|..] == s[|s| - |r|..];
      assert forall i :: 1 <= i < |s| - |r| ==> s[i] == s[1..][i - 1];
      r
    else s
  }

  /** `s` without its trailing trimmed characters. */
  function TrimRight(s: string): (r: string)
    ensures |r| <= |s| && r == s[..|r|]
    ensures r == [] || !IsTrimmed(r[|r| - 1])
    ensures forall i :: |r| <= i < |s| ==> IsTrimmed(s[i])
  {
    if s != [] && IsTrimmed(s[|s| - 1]) then TrimRight(s[..|s| - 1]) else s
  }

  /** Neither end of `r` is trimmable. */
  predicate SolidEnds(r: string) {
    r == [] || (!IsTrimmed(r[0]) && !IsTrimmed(r[|r| - 1]))
  }

  /** Every character of `s` before `lo` or from `hi` on is trimmable. */
  predicate TrimmableOutside(s: string, lo: int, hi: int) {
    forall k :: 0 <= k < |s| && (k < lo || hi <= k) ==> IsTrimmed(s[k])
  }

  /** `r` is a window of `s` and every character of `s` outside it is trimmable. */
  predicate Strips(s: string, r: string) {
    exists lo, hi :: 0 <= lo <= hi <= |s| && r == s[lo..hi] && TrimmableOutside(s, lo, hi)
  }

  /**
   * PHP's `trim`: the result is what remains of `s` once trimmable characters
   * are removed from both ends, and neither of its ends is trimmable.
   */
  function Trim(s: string): (r: string)
    ensures Strips(s, r) && SolidEnds(r)
    ensures SolidEnds(s) ==> r == s
  {
    var l := TrimLeft(s);
    var r := TrimRight(l);
    TrimWindow(s, l, r);
    r
  }

  /** The two halves of `trim` leave the window `s[|s| - |l|..][..|r|]`. */
  lemma TrimWindow(s: string, l: string, r: string)
    requires l == TrimLeft(s) && r == TrimRight(l)
    ensures Strips(s, r) && SolidEnds(r)
  {
    var lo, hi := |s| - |l|, |s| - |l| + |r|;
    assert l == s[lo..];
    assert r == l[..|r|];
    assert r == s[lo..hi];
    assert TrimmableOutside(l, 0, |r|);
    forall k | 0 <= k < |s| && (k < lo || hi <= k) ensures IsTrimmed(s[k]) {
      if hi <= k {
        assert s[k] == l[k - lo];
      }
    }
    assert TrimmableOutside(s, lo, hi);
  }

  /** A window with trimmable surroundings and untrimmable ends holds its first and last characters. */
  lemma WindowHolds(s: string, lo: nat, hi: nat, lo': nat, hi': nat)
    requires lo < hi <= |s| && !IsTrimmed(s[lo]) && !IsTrimmed(s[hi - 1])
    requires lo' <= hi' <= |s| && TrimmableOutside(s, lo', hi')
    ensures lo' <= lo && hi <= hi'
  {
    assert !IsTrimmed(s[lo]) && !IsTrimmed(s[hi - 1]);
  }

  /** Two windows of `s` with trimmable surroundings and untrimmable ends are the same window. */
  lemma WindowUnique(s: string, lo: nat, hi: nat, lo': nat, hi': nat)
    requires lo <= hi <= |s| && TrimmableOutside(s, lo, hi) && SolidEnds(s[lo..hi])
    requires lo' <= hi' <= |s| && TrimmableOutside(s, lo', hi') && SolidEnds(s[lo'..hi'])
    ensures s[lo..hi] == s[lo'..hi']
  {
    if lo < hi {
      assert s[lo..hi][0] == s[lo] && s[lo..hi][hi - lo - 1] == s[hi - 1];
      WindowHolds(s, lo, hi, lo', hi');
      assert s[lo'..hi'][0] == s[lo'] && s[lo'..hi'][hi' - lo' - 1] == s[hi' - 1];
      WindowHolds(s, lo', hi', lo, hi);
    } else if lo' < hi' {
      assert false;
    }
  }

  /** `Strips` with untrimmable ends determines the result: it is exactly `Trim`. */
  lemma TrimUnique(s: string, r: string)
    requires Strips(s, r) && SolidEnds(r)
    ensures r == Trim(s)
  {
    var t := Trim(s);
    var lo, hi :| 0 <= lo <= hi <= |s| && r == s[lo..hi] && TrimmableOutside(s, lo, hi);
    var lo', hi' :| 0 <= lo' <= hi' <= |s| && t == s[lo'..hi'] && TrimmableOutside(s, lo', hi');
    WindowUnique(s, lo, hi, lo', hi');
  }

  /** Trimming is idempotent. */
  lemma TrimIdempotent(s: string)
    ensures Trim(Trim(s)) == Trim(s)
  {
  }

  class User {
    var id: Option<string>
    var degreesBeforeName: string
    var firstName: string
    var lastName: string
    var degreesAfterName: string
    var email: string
    var avatarUrl: string
    var isVerified: bool
    var isAllowed: bool
    var studentOf: seq<string>
    var supervisorOf: seq<string>
    var exercises: seq<string>
    var role: string

    /**
     * `createUser`: the given names, email and role, the avatar derived from
     * the email (`avatarUrl`), unverified, allowed, in no group and without
     * exercises. The id is assigned by persistence.
     */
    constructor CreateUser(email: string, firstName: string, lastName: string, degreesBeforeName: string,
                           degreesAfterName: string, role: string, avatarUrl: string)
      ensures this.email == email && this.firstName == firstName && this.lastName == lastName
      ensures this.degreesBeforeName == degreesBeforeName && this.degreesAfterName == degreesAfterName
      ensures this.role == role && this.avatarUrl == avatarUrl && id.None?
      ensures !isVerified && IsAllowed()
      ensures studentOf == [] && supervisorOf == [] && exercises == []
    {
      id := None;
      this.firstName := firstName;
      this.lastName := lastName;
      this.degreesBeforeName := degreesBeforeName;
      this.degreesAfterName := degreesAfterName;
      this.email := email;
      this.avatarUrl := avatarUrl;
      isVerified := false;
      isAllowed := true;
      studentOf := [];
      supervisorOf := [];
      exercises := [];
      this.role := role;
    }

    /** `isAllowed`: the stored flag. */
    predicate IsAllowed()
      reads this
    {
      isAllowed
    }

    /** `getName`: degrees before, first name, last name and degrees after, space-separated and trimmed. */
    function GetName(): (name: string)
      reads this
      ensures Strips(degreesBeforeName + " " + firstName + " " + lastName + " " + degreesAfterName, name)
      ensures SolidEnds(name)
      ensures |name| <= |degreesBeforeName| + |firstName| + |lastName| + |degreesAfterName| + 3
    {
      Trim(degreesBeforeName + " " + firstName + " " + lastName + " " + degreesAfterName)
    }

    /** The "fullName" and flags of `jsonSerialize`. */
    function ToJson(): (j: UserJson)
      reads this
      ensures j.fullName == GetName() && j.isVerified == isVerified && j.role == role
      ensures j.studentOf == studentOf && j.supervisorOf == supervisorOf
    {
      UserJson(id, GetName(), degreesBeforeName, firstName, lastName, degreesAfterName,
               avatarUrl, isVerified, role, studentOf, supervisorOf)
    }
  }

  /** The serialised user. */
  datatype UserJson = UserJson(id: Option<string>, fullName: string, degreesBeforeName: string, firstName: string,
                               lastName: string, degreesAfterName: string, avatarUrl: string, isVerified: bool,
                               role: string, studentOf: seq<string>, supervisorOf: seq<string>)

  /** A name part that starts and ends with a visible character. */
  predicate Solid(s: string) {
    s != [] && !IsTrimmed(s[0]) && !IsTrimmed(s[|s| - 1])
  }

  /** One space around a solid string is exactly what trimming removes. */
  lemma TrimSpaces(x: string)
    requires Solid(x)
    ensures Trim([' '] + x + [' ']) == x
  {
    var y := [' '] + x + [' '];
    assert y[1..] == x + [' '];
    assert TrimLeft(y) == TrimLeft(x + [' ']);
    assert TrimLeft(x + [' ']) == x + [' '];
    assert (x + [' '])[..|x|] == x;
    assert TrimRight(x + [' ']) == TrimRight(x);
  }

  /** Without degrees the name is the first and last name joined by one space. */
  lemma NameWithoutDegrees(u: User)
    requires u.degreesBeforeName == "" && u.degreesAfterName == ""
    requires Solid(u.firstName) && Solid(u.lastName)
    ensures u.GetName() == u.firstName + " " + u.lastName
  {
    var inner := u.firstName + " " + u.lastName;
    assert u.degreesBeforeName + " " + u.firstName + " " + u.lastName + " " + u.degreesAfterName == [' '] + inner + [' '];
    TrimSpaces(inner);
  }

  /** With all four parts present the name is the four joined by single spaces. */
  lemma NameWithDegrees(u: User)
    requires Solid(u.degreesBeforeName) && Solid(u.firstName) && Solid(u.lastName) && Solid(u.degreesAfterName)
    ensures u.GetName() == u.degreesBeforeName + " " + u.firstName + " " + u.lastName + " " + u.degreesAfterName
  {
    var joined := u.degreesBeforeName + " " + u.firstName + " " + u.lastName + " " + u.degreesAfterName;
    assert joined[0] == u.degreesBeforeName[0] && joined[|joined| - 1] == u.degreesAfterName[|u.degreesAfterName| - 1];
  }
}
