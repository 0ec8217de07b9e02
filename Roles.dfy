// The principal-role classifier of apps/web/src/lib/constants/roles.ts: a role
// is lower-cased and trimmed, then matched exactly or by substring against
// the fixed list of principal roles.

module Roles {
  import opened Wrappers
  import opened Text

  const PrincipalRoles: seq<string> :=
    ["principal", "school_principal", "head_teacher", "headmaster", "headmistress", "school_owner"]

  /** `role.toLowerCase().trim()`. */
  function NormalizeRole(role: string): (r: string)
    ensures |r| <= |role|
    ensures r == [] || (!IsJsSpace(r[0]) && !IsJsSpace(r[|r| - 1]))
  {
    Trim(LowerStr(role))
  }

  /** `PRINCIPAL_ROLES.some(p => n === p || n.includes(p))` over a suffix of the list. */
  function AnyContained(n: string, ps: seq<string>): (b: bool)
    ensures b <==> exists p :: p in ps && Contains(n, p)
  {
    if ps == [] then false
    else if n == ps[0] || Contains(n, ps[0]) then
      assert Contains(n, ps[0]) && ps[0] in ps;
      true
    else
      var rest := AnyContained(n, ps[1..]);
      assert forall p :: p in ps ==> p == ps[0] || p in ps[1..];
      assert forall p :: p in ps[1..] ==> p in ps;
      rest
  }

  /** The test applied to the normalised role: an exact match, else a substring match. */
  function MatchesPrincipal(n: string): (b: bool)
    ensures b <==> exists p :: p in PrincipalRoles && Contains(n, p)
  {
    if n in PrincipalRoles then
      assert Contains(n, n);
      true
    else AnyContained(n, PrincipalRoles)
  }

  /** `isPrincipalRole`: absent or empty roles are not principal; otherwise the
      normalised role must equal or contain one of the principal roles. */
  function IsPrincipalRole(role: Option<string>): (b: bool)
    ensures !Truthy(role) ==> !b
    ensures Truthy(role) ==> (b <==> exists p :: p in PrincipalRoles && Contains(NormalizeRole(role.value), p))
  {
    if !Truthy(role) then false else MatchesPrincipal(NormalizeRole(role.value))
  }

  lemma {:induction false} NormalizeIgnoresCase(role: string)
    ensures NormalizeRole(UpperStr(role)) == NormalizeRole(role)
    ensures NormalizeRole(LowerStr(role)) == NormalizeRole(role)
  {
    LowerOfUpper(role);
    LowerStrIdempotent(role);
  }

  lemma {:induction false} LowerKeepsAllSpace(w: string)
    requires AllSpace(w)
    ensures LowerStr(w) == w
  {
    forall i | 0 <= i < |w| ensures LowerStr(w)[i] == w[i] {
      assert IsJsSpace(w[i]);
    }
  }

  lemma {:induction false} NormalizeIgnoresPadding(w1: string, role: string, w2: string)
    requires AllSpace(w1) && AllSpace(w2)
    ensures NormalizeRole(w1 + role + w2) == NormalizeRole(role)
  {
    LowerStrConcat(w1 + role, w2);
    LowerStrConcat(w1, role);
    LowerKeepsAllSpace(w1);
    LowerKeepsAllSpace(w2);
    TrimPadded(w1, LowerStr(role), w2);
  }

  /** The verdict does not depend on letter case. */
  lemma {:induction false} PrincipalIgnoresCase(role: string)
    ensures IsPrincipalRole(Some(UpperStr(role))) == IsPrincipalRole(Some(role))
    ensures IsPrincipalRole(Some(LowerStr(role))) == IsPrincipalRole(Some(role))
  {
    NormalizeIgnoresCase(role);
    SameNormalForm(UpperStr(role), role);
    SameNormalForm(LowerStr(role), role);
  }

  /** A role whose normal form is empty is never principal: "" holds no principal role. */
  lemma {:induction false} EmptyNormalFormNotPrincipal(role: string)
    requires NormalizeRole(role) == []
    ensures !IsPrincipalRole(Some(role))
  {
    PrincipalRolesAreLong();
    forall p | p in PrincipalRoles
      ensures !Contains(NormalizeRole(role), p)
    {
      if Contains(NormalizeRole(role), p) {
        ContainsLength(NormalizeRole(role), p);
      }
    }
  }

  /** Two roles that normalise alike get the same verdict. An empty role is falsy, and a
      role of white space normalises to "", which holds no principal role either. */
  lemma {:induction false} SameNormalForm(a: string, b: string)
    requires NormalizeRole(a) == NormalizeRole(b)
    ensures IsPrincipalRole(Some(a)) == IsPrincipalRole(Some(b))
  {
    var e: string := [];
    assert NormalizeRole(e) == [];
    if a == [] {
      assert NormalizeRole(b) == NormalizeRole(e);
      EmptyNormalFormNotPrincipal(b);
    } else if b == [] {
      assert NormalizeRole(a) == NormalizeRole(e);
      EmptyNormalFormNotPrincipal(a);
    } else {
      assert IsPrincipalRole(Some(a)) == MatchesPrincipal(NormalizeRole(a));
      assert IsPrincipalRole(Some(b)) == MatchesPrincipal(NormalizeRole(b));
    }
  }

  /** Nor on white space around the role. */
  lemma {:induction false} PrincipalIgnoresPadding(w1: string, role: string, w2: string)
    requires AllSpace(w1) && AllSpace(w2)
    ensures IsPrincipalRole(Some(w1 + role + w2)) == IsPrincipalRole(Some(role))
  {
    NormalizeIgnoresPadding(w1, role, w2);
    if role == [] {
      assert NormalizeRole(role) == [];
      forall p | p in PrincipalRoles ensures !Contains([], p) {
        if Contains([], p) {
          ContainsLength([], p);
        }
      }
    }
  }

  lemma {:induction false} EntriesAreLowerAndUnpadded(p: string)
    requires p in PrincipalRoles
    ensures LowerStr(p) == p && !IsJsSpace(p[0]) && !IsJsSpace(p[|p| - 1])
  {
    assert forall i :: 0 <= i < |p| ==> IsLowerAscii(p[i]) || p[i] == '_';
    assert forall i :: 0 <= i < |p| ==> LowerStr(p)[i] == p[i];
  }

  /** Every principal role, written in any letter case, is recognised. */
  lemma {:induction false} EntryInAnyCase(role: string)
    requires LowerStr(role) in PrincipalRoles
    ensures IsPrincipalRole(Some(role))
  {
    ContainsPrincipalAnyCase([], role, []);
    assert [] + (role + []) == role;
  }

  /** The examples of the doc comment that the code bears out. */
  lemma {:induction false} PrincipalExample()
    ensures IsPrincipalRole(Some("Principal"))
  {
    assert LowerStr("Principal") == "principal";
    EntryInAnyCase("Principal");
  }

  lemma {:induction false} SchoolOwnerExample()
    ensures IsPrincipalRole(Some("school_owner"))
  {
    assert LowerStr("school_owner") == "school_owner";
    EntryInAnyCase("school_owner");
  }

  lemma {:induction false} PrincipalRolesAreLong()
    ensures forall p :: p in PrincipalRoles ==> |p| >= 9
  {
  }

  /** A role shorter than the shortest principal role ("principal") cannot contain one. */
  lemma {:induction false} ShortRoleNotPrincipal(role: string)
    requires |role| < 9
    ensures !IsPrincipalRole(Some(role))
  {
    var n := NormalizeRole(role);
    PrincipalRolesAreLong();
    forall p | p in PrincipalRoles ensures !Contains(n, p) {
      if Contains(n, p) {
        ContainsLength(n, p);
      }
    }
  }

  lemma {:induction false} BursarExample()
    ensures !IsPrincipalRole(Some("Bursar"))
  {
    ShortRoleNotPrincipal("Bursar");
  }

  /** "School Principal" is recognised through "principal". */
  lemma {:induction false} SchoolPrincipalExample()
    ensures IsPrincipalRole(Some("School Principal"))
  {
    assert "School Principal" == "School " + ("Principal" + "");
    assert LowerStr("Principal") == "principal";
    ContainsPrincipalAnyCase("School ", "Principal", "");
  }

  /** A role that contains a principal role, in any letter case, is recognised. */
  lemma {:induction false} ContainsPrincipalAnyCase(before: string, q: string, after: string)
    requires LowerStr(q) in PrincipalRoles
    ensures IsPrincipalRole(Some(before + (q + after)))
  {
    var p := LowerStr(q);
    EntriesAreLowerAndUnpadded(p);
    LowerStrConcat(before, q + after);
    LowerStrConcat(q, after);
    var x, y := LowerStr(before), LowerStr(after);
    assert LowerStr(before + (q + after)) == x + (p + y);
    TrimKeepsCore(x, p, y);
  }

  predicate IsKeyLetter(c: char) { c == 'p' || c == 'P' || c == 'm' || c == 'M' || c == '_' }

  /** A role with no 'p', no 'm' (in either case) and no '_' is never a principal role.
      'School Owner' is one: the doc comment's claim that it is recognised does not hold,
      since the listed role is spelt "school_owner". */
  lemma {:induction false} RoleWithoutKeyLettersIsNotPrincipal(role: string)
    requires forall i :: 0 <= i < |role| ==> !IsKeyLetter(role[i])
    ensures !IsPrincipalRole(Some(role))
  {
    var l := LowerStr(role);
    assert forall i :: 0 <= i < |l| ==> !IsKeyLetter(l[i]);
    var lo, hi := TrimIsSlice(l);
    var n := NormalizeRole(role);
    assert n == l[lo..hi];
    assert forall c :: c in n ==> !IsKeyLetter(c);
    NoPrincipalWithout(n);
  }

  lemma {:induction false} SchoolOwnerHasNoKeyLetters()
    ensures forall i :: 0 <= i < |"School Owner"| ==> !IsKeyLetter("School Owner"[i])
  {
  }

  /** 'School Owner', which the doc comment lists as recognised, is not. */
  lemma {:induction false} SchoolOwnerIsNotPrincipal()
    ensures !IsPrincipalRole(Some("School Owner"))
  {
    SchoolOwnerHasNoKeyLetters();
    RoleWithoutKeyLettersIsNotPrincipal("School Owner");
  }

  /** Each principal role has a 'p', an 'm' or an '_', so text without all three matches none. */
  lemma {:induction false} NoPrincipalWithout(n: string)
    requires 'p' !in n && 'm' !in n && '_' !in n
    ensures !MatchesPrincipal(n)
  {
    forall p | p in PrincipalRoles ensures !Contains(n, p) {
      var c := if 'p' in p then 'p' else if 'm' in p then 'm' else '_';
      assert c in p;
      if Contains(n, p) {
        ContainsChars(n, p, c);
      }
    }
  }
}
