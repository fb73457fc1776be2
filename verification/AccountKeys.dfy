/** The joined keys behind the duplicate checks on service accounts: when two
    entries share a key, and which lists the webhook refuses for it. */
module AccountKeys {
  import opened Options
  import opened ControlPlanes
  import opened Webhook

  function Pair(left: string, right: string): string { left + NUL + right }

  /** `v` is `u` up to one of its NULs, and `e` is the rest of `u` joined to `d`. */
  predicate Shifted(u: string, d: string, v: string, e: string) {
    |v| < |u| && u[..|v|] == v && u[|v|] == '\0' && e == Pair(u[|v| + 1..], d)
  }

  predicate Collide(u: string, d: string, v: string, e: string) { Shifted(u, d, v, e) || Shifted(v, e, u, d) }

  lemma ShiftedJoin(u: string, d: string, v: string, e: string)
    requires Shifted(u, d, v, e)
    ensures Pair(u, d) == Pair(v, e)
  {
    assert u == v + NUL + u[|v| + 1..];
  }

  lemma LongerJoin(u: string, d: string, v: string, e: string)
    requires Pair(u, d) == Pair(v, e) && |v| <= |u|
    ensures (u == v && d == e) || Shifted(u, d, v, e)
  {
    var p := Pair(u, d);
    assert p[..|u|] == u && p[|u| + 1..] == d && p[..|v|] == v && p[|v| + 1..] == e;
    if |v| < |u| {
      assert u[|v|] == p[|v|] == '\0';
      assert e == p[|v| + 1..] == Pair(u[|v| + 1..], d);
    }
  }

  /** Two joins agree exactly when their parts do, or when one is the other with
      a NUL of the left part moved into the right. */
  lemma JoinsEqual(u: string, d: string, v: string, e: string)
    ensures Pair(u, d) == Pair(v, e) <==> (u == v && d == e) || Collide(u, d, v, e)
  {
    if Pair(u, d) == Pair(v, e) {
      if |v| <= |u| { LongerJoin(u, d, v, e); } else { LongerJoin(v, e, u, d); }
    }
    if Shifted(u, d, v, e) { ShiftedJoin(u, d, v, e); }
    if Shifted(v, e, u, d) { ShiftedJoin(v, e, u, d); }
  }

  ghost predicate SharesKey(u: string, d: string) {
    exists v, e :: Pair(v, e) == Pair(u, d) && (v != u || e != d)
  }

  /** A key stands for more than one pair exactly when either part holds a NUL. */
  lemma KeyAmbiguous(u: string, d: string)
    ensures SharesKey(u, d) <==> '\0' in u || '\0' in d
  {
    if SharesKey(u, d) {
      var v, e :| Pair(v, e) == Pair(u, d) && (v != u || e != d);
      JoinsEqual(u, d, v, e);
      if Shifted(u, d, v, e) { assert u[|v|] in u; }
      if Shifted(v, e, u, d) { assert d[|v| - |u| - 1] == '\0'; }
    }
    if '\0' in u {
      var i :| 0 <= i < |u| && u[i] == '\0';
      ShiftedJoin(u, d, u[..i], Pair(u[i + 1..], d));
    }
    if '\0' in d {
      var i :| 0 <= i < |d| && d[i] == '\0';
      var v := Pair(u, d[..i]);
      assert v[..|u|] == u && d == Pair(v[|u| + 1..], d[i + 1..]);
      ShiftedJoin(v, d[i + 1..], u, d);
    }
  }

  lemma ShiftedHasNul(u: string, d: string, v: string, e: string)
    requires Shifted(u, d, v, e)
    ensures '\0' in u && '\0' in e
  {
    assert u[|v|] in u && e[|u| - |v| - 1] == '\0';
  }

  /** Right parts without a NUL, or left parts without one, never collide. */
  lemma NulFreeNeverCollide(u: string, d: string, v: string, e: string)
    requires ('\0' !in d && '\0' !in e) || ('\0' !in u && '\0' !in v)
    ensures !Collide(u, d, v, e)
  {
    if Shifted(u, d, v, e) { ShiftedHasNul(u, d, v, e); }
    if Shifted(v, e, u, d) { ShiftedHasNul(v, e, u, d); }
  }

  /* ---- The two duplicate checks ---- */

  predicate SameIdentity(cp: ControlPlane, a: ServiceAccount, b: ServiceAccount) {
    AccountUser(a) == AccountUser(b) && AccountDomain(cp, a) == AccountDomain(cp, b)
  }

  predicate SameProject(cp: ControlPlane, a: ServiceAccount, b: ServiceAccount) {
    a.project.name == b.project.name && AccountDomain(cp, a) == AccountDomain(cp, b)
  }

  predicate IdentitiesCollide(cp: ControlPlane, a: ServiceAccount, b: ServiceAccount) {
    Collide(AccountUser(a), AccountDomain(cp, a), AccountUser(b), AccountDomain(cp, b))
  }

  predicate ProjectsCollide(cp: ControlPlane, a: ServiceAccount, b: ServiceAccount) {
    Collide(a.project.name, AccountDomain(cp, a), b.project.name, AccountDomain(cp, b))
  }

  /** Which two entries count as one user. */
  lemma IdentityKeysEqual(cp: ControlPlane, a: ServiceAccount, b: ServiceAccount)
    ensures IdentityKey(cp, a) == IdentityKey(cp, b) <==> SameIdentity(cp, a, b) || IdentitiesCollide(cp, a, b)
  {
    JoinsEqual(AccountUser(a), AccountDomain(cp, a), AccountUser(b), AccountDomain(cp, b));
  }

  /** Which two entries count as managing one project. */
  lemma ProjectKeysEqual(cp: ControlPlane, a: ServiceAccount, b: ServiceAccount)
    ensures ProjectKey(cp, a) == ProjectKey(cp, b) <==> SameProject(cp, a, b) || ProjectsCollide(cp, a, b)
  {
    JoinsEqual(a.project.name, AccountDomain(cp, a), b.project.name, AccountDomain(cp, b));
  }

  ghost predicate BothManage(a: ServiceAccount, b: ServiceAccount) { ManagesProject(a) && ManagesProject(b) }

  /** The rule as it is meant: no two entries are one account, one user of one
      domain, or two owners of one project. */
  ghost predicate MeantDistinct(cp: ControlPlane) {
    var sas := cp.spec.serviceAccounts;
    forall i, j :: 0 <= i < j < |sas| ==>
      && sas[i].name != sas[j].name
      && !SameIdentity(cp, sas[i], sas[j])
      && (BothManage(sas[i], sas[j]) ==> !SameProject(cp, sas[i], sas[j]))
  }

  ghost predicate MeantOk(cp: ControlPlane) {
    && |cp.spec.serviceAccounts| <= MAX_SERVICE_ACCOUNTS
    && (forall i :: 0 <= i < |cp.spec.serviceAccounts| ==> AccountOk(cp, cp.spec.serviceAccounts[i]))
    && MeantDistinct(cp)
  }

  ghost predicate SomeCollide(cp: ControlPlane) {
    var sas := cp.spec.serviceAccounts;
    exists i, j :: 0 <= i < j < |sas|
                   && (IdentitiesCollide(cp, sas[i], sas[j])
                       || (BothManage(sas[i], sas[j]) && ProjectsCollide(cp, sas[i], sas[j])))
  }

  /** The accounts the webhook accepts are those that meet the rule and hold no
      colliding entries: a list that meets the rule is refused exactly then. */
  lemma AcceptedExactly(cp: ControlPlane)
    ensures AccountsOk(cp) <==> MeantOk(cp) && !SomeCollide(cp)
  {
    var sas := cp.spec.serviceAccounts;
    forall i, j | 0 <= i < j < |sas|
      ensures IdentityKey(cp, sas[i]) == IdentityKey(cp, sas[j]) <==>
              SameIdentity(cp, sas[i], sas[j]) || IdentitiesCollide(cp, sas[i], sas[j])
      ensures ProjectKey(cp, sas[i]) == ProjectKey(cp, sas[j]) <==>
              SameProject(cp, sas[i], sas[j]) || ProjectsCollide(cp, sas[i], sas[j])
    {
      IdentityKeysEqual(cp, sas[i], sas[j]);
      ProjectKeysEqual(cp, sas[i], sas[j]);
    }
  }

  /** Where the domains hold no NUL, the webhook enforces the rule itself,
      whatever the users and projects are called. */
  lemma NulFreeDomainsSuffice(cp: ControlPlane)
    requires forall sa :: sa in cp.spec.serviceAccounts ==> '\0' !in AccountDomain(cp, sa)
    ensures AccountsOk(cp) <==> MeantOk(cp)
  {
    AcceptedExactly(cp);
    var sas := cp.spec.serviceAccounts;
    forall i, j | 0 <= i < j < |sas|
      ensures !IdentitiesCollide(cp, sas[i], sas[j]) && !ProjectsCollide(cp, sas[i], sas[j])
    {
      NulFreeNeverCollide(AccountUser(sas[i]), AccountDomain(cp, sas[i]), AccountUser(sas[j]), AccountDomain(cp, sas[j]));
      NulFreeNeverCollide(sas[i].project.name, AccountDomain(cp, sas[i]), sas[j].project.name, AccountDomain(cp, sas[j]));
    }
  }

  /* ---- Lists that meet the rule and are refused ---- */

  function Plane(accounts: seq<ServiceAccount>): ControlPlane {
    ControlPlane("ns", "cp", 0,
                 Spec("", None, None, None, AdminCredential("", "", SecretRef("", ""), "admin", "", "", None, ""), accounts, ""))
  }

  function Account(name: string, user: string, domain: string, project: Project): ServiceAccount {
    ServiceAccount(name, user, domain, project, [], "")
  }

  const TWO_USERS := Plane([
    Account("one", "a\0b", "c", Project("p", false)), Account("two", "a", "b\0c", Project("p", false))])

  const TWO_PROJECTS := Plane([
    Account("one", "u", "c", Project("a\0b", true)), Account("two", "v", "b\0c", Project("a", true))])

  /** An entry that no rule on a single entry touches. */
  ghost predicate Plain(sa: ServiceAccount) {
    && sa == Account(sa.name, sa.userName, sa.domainName, sa.project)
    && sa.name in {"one", "two"} && sa.userName !in {"", "admin"} && sa.domainName != "" && sa.project.name != ""
    && ',' !in sa.userName && ',' !in sa.domainName && ',' !in sa.project.name
  }

  lemma PlainAccountOk(accounts: seq<ServiceAccount>, sa: ServiceAccount)
    requires Plain(sa)
    ensures AccountOk(Defaulted(Plane(accounts)), sa)
  {
    assert IsLabel("one") && IsLabel("two");
  }

  /** Once defaulted, these planes break no rule but, perhaps, one on accounts. */
  lemma DefaultedPlaneOk(accounts: seq<ServiceAccount>)
    requires forall sa :: sa in accounts ==> sa.userName != ""
    ensures BaseOk(Defaulted(Plane(accounts))) && Defaulted(Plane(accounts)).spec.serviceAccounts == accounts
  {
    DefaultedOptInIsAdmitted(Plane(accounts));
  }

  lemma TwoCollide(cp: ControlPlane, a: ServiceAccount, b: ServiceAccount)
    requires cp.spec.serviceAccounts == [a, b] && AccountOk(cp, a) && AccountOk(cp, b) && a.name != b.name
    requires AccountDomain(cp, a) != AccountDomain(cp, b)
    requires IdentitiesCollide(cp, a, b) || (BothManage(a, b) && ProjectsCollide(cp, a, b))
    ensures MeantOk(cp) && !AccountsOk(cp)
  {
    AcceptedExactly(cp);
    var sas := cp.spec.serviceAccounts;
    assert sas[0] == a && sas[1] == b;
  }

  /** Two entries, each fine and different as the rule means it, whose keys
      collide: the object the webhook sees meets every rule and is refused. */
  lemma CollidingRefused(a: ServiceAccount, b: ServiceAccount)
    requires Plain(a) && Plain(b) && a.name != b.name && a.domainName != b.domainName
    requires
      || Collide(a.userName, a.domainName, b.userName, b.domainName)
      || (BothManage(a, b) && Collide(a.project.name, a.domainName, b.project.name, b.domainName))
    ensures var cp := Defaulted(Plane([a, b])); BaseOk(cp) && MeantOk(cp) && !SpecOk(cp)
  {
    var sas := [a, b];
    var cp := Defaulted(Plane(sas));
    DefaultedPlaneOk(sas);
    PlainAccountOk(sas, a);
    PlainAccountOk(sas, b);
    TwoCollide(cp, a, b);
  }

  lemma Colliding()
    ensures Shifted("a\0b", "c", "a", "b\0c")
  {
  }

  /** Two different users of two different domains. */
  lemma TwoUsersRefused()
    ensures var cp := Defaulted(TWO_USERS); BaseOk(cp) && MeantOk(cp) && !SpecOk(cp)
  {
    Colliding();
    CollidingRefused(TWO_USERS.spec.serviceAccounts[0], TWO_USERS.spec.serviceAccounts[1]);
  }

  /** Two different projects of two different domains. */
  lemma TwoProjectsRefused()
    ensures var cp := Defaulted(TWO_PROJECTS); BaseOk(cp) && MeantOk(cp) && !SpecOk(cp)
  {
    Colliding();
    CollidingRefused(TWO_PROJECTS.spec.serviceAccounts[0], TWO_PROJECTS.spec.serviceAccounts[1]);
  }
}
