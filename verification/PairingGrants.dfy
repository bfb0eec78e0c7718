/**
 What a phone gets by redeeming a pairing code: from the member an admin picks,
 or the grant an admin gives, through the code and the redeeming request, to the
 device enrolled, whatever other requests do in between.
 */
module PairingGrants {
  import opened Documents
  import opened Wrappers
  import opened AuthEngine
  import opened AuthScopes
  import opened PairingProtocol

  // -- what lies between ----------------------------------------------------------------

  /** The step leaves the grant listed for this request. */
  predicate SparesListed(step: Step, req: RequestId) {
    match step
    case ListMember(r, _) => r != req
    case MintListed(r, _) => r != req
    case Forget(reqs) => req !in reqs
    case _ => true
  }

  /** The step neither spends, drops nor mints over this code. */
  predicate SparesCode(step: Step, code: CodeId) {
    match step
    case MintListed(_, n) => Pair(n) != code
    case Mint(n, _, _, _) => Pair(n) != code
    case Redeem(_, c, _) => c != code
    case ArmBootstrap(_) => code != Bootstrap
    case DropCodes(dropped) => code !in dropped
    case _ => true
  }

  /** The step leaves the grant this request has redeemed. */
  predicate SparesRedeemed(step: Step, req: RequestId) {
    match step
    case Redeem(r, _, _) => r != req
    case EnrollRedeemed(r, _, _, _) => r != req
    case Forget(reqs) => req !in reqs
    case _ => true
  }

  lemma {:induction false} ListedStays(s: State, steps: seq<Step>, req: RequestId)
    requires Legal(s, steps) && req in s.listed && forall i :: 0 <= i < |steps| ==> SparesListed(steps[i], req)
    ensures var s' := After(s, steps); req in s'.listed && s'.listed[req] == s.listed[req]
    decreases |steps|
  {
    if steps != [] {
      var s1 := Apply(s, steps[0]);
      assert req in s1.listed && s1.listed[req] == s.listed[req];
      ListedStays(s1, steps[1..], req);
    }
  }

  lemma {:induction false} CodeStays(s: State, steps: seq<Step>, code: CodeId)
    requires Legal(s, steps) && code in s.codes && forall i :: 0 <= i < |steps| ==> SparesCode(steps[i], code)
    ensures var s' := After(s, steps); code in s'.codes && s'.codes[code] == s.codes[code]
    decreases |steps|
  {
    if steps != [] {
      var s1 := Apply(s, steps[0]);
      assert code in s1.codes && s1.codes[code] == s.codes[code];
      CodeStays(s1, steps[1..], code);
    }
  }

  lemma {:induction false} RedeemedStays(s: State, steps: seq<Step>, req: RequestId)
    requires Legal(s, steps) && req in s.redeemed && forall i :: 0 <= i < |steps| ==> SparesRedeemed(steps[i], req)
    ensures var s' := After(s, steps); req in s'.redeemed && s'.redeemed[req] == s.redeemed[req]
    decreases |steps|
  {
    if steps != [] {
      var s1 := Apply(s, steps[0]);
      assert req in s1.redeemed && s1.redeemed[req] == s.redeemed[req];
      RedeemedStays(s1, steps[1..], req);
    }
  }

  // -- from a member to a code -----------------------------------------------------------------

  /** "Add a device" mints a code for what the member's device had when it was looked up; there is none for an admin. */
  lemma AddDeviceMints(s: State, req: RequestId, device: DeviceId, between: seq<Step>, n: nat)
    requires Enabled(s, ListMember(req, device)) && Legal(Apply(s, ListMember(req, device)), between)
    requires forall i :: 0 <= i < |between| ==> SparesListed(between[i], req)
    ensures var s1, d := After(Apply(s, ListMember(req, device)), between), s.table[device];
      && Enabled(s1, MintListed(req, n))
      && Apply(s1, MintListed(req, n)).codes ==
           (if d.role == Admin || (d.rooms != None && d.role != User) then s1.codes
            else s1.codes[Pair(n) := Grant(d.role, d.rooms, Some(Scope(d.role, d.rooms, d.access).access), Some(MemberOf(device, d)))])
  {
    ListedStays(Apply(s, ListMember(req, device)), between, req);
  }

  /** An admin's own grant becomes a code unless it is an admin's or scopes a sub-admin. */
  lemma MintingGrants(s: State, n: nat, role: Role, rooms: Rooms, access: Option<Access>)
    ensures Apply(s, Mint(n, role, rooms, access)).codes ==
      if role == Admin || (rooms != None && role != User) then s.codes
      else s.codes[Pair(n) := Grant(role, rooms, access, None)]
  {}

  /** Arming leaves an unclaimed hub with an owner code, an old one unless it is replaced, and a claimed hub with none. */
  lemma ArmingGrants(s: State, replace: bool)
    ensures var codes := Apply(s, ArmBootstrap(replace)).codes;
      && codes - {Bootstrap} == s.codes - {Bootstrap}
      && (Bootstrap in codes <==> NoAdmin(s.table))
      && (Bootstrap in codes ==> codes[Bootstrap] == if replace || Bootstrap !in s.codes then Grant(Admin, None, None, None) else s.codes[Bootstrap])
  {
    NoAdminIsUnclaimed(s.table);
  }

  // -- from a code to a device ------------------------------------------------------------------

  /** A code is let through, and spent, unless it grants admin and comes from outside, or is the owner's on a claimed hub. */
  lemma RedeemingGrants(s: State, req: RequestId, code: CodeId, remote: bool)
    ensures var s' := Apply(s, Redeem(req, code, remote));
      if code !in s.codes
         || (remote && (code == Bootstrap || s.codes[code].role == Admin))
         || (code == Bootstrap && !NoAdmin(s.table))
      then s' == s
      else s' == s.(codes := s.codes - {code}, redeemed := s.redeemed[req := Redeemed(s.codes[code], remote)])
  {
    NoAdminIsUnclaimed(s.table);
  }

  /** The new device holds the redeemed code's role, rooms, cameras and member, and its first token just these. */
  lemma CodeBecomesDevice(s: State, req: RequestId, between: seq<Step>, newId: DeviceId, key: Option<Key>, newMember: MemberId)
    requires req in s.redeemed && Legal(s, between) && forall i :: 0 <= i < |between| ==> SparesRedeemed(between[i], req)
    requires Enabled(After(s, between), EnrollRedeemed(req, newId, key, newMember))
    requires Ids(After(s, between).table) <= After(s, between).seen
    ensures var g, s1 := s.redeemed[req].grant, After(s, between);
      var s' := Apply(s1, EnrollRedeemed(req, newId, key, newMember));
      && req !in s'.redeemed && s'.codes == s1.codes
      && if key != None && (g.rooms == None || g.role == User) && (g.role == Admin ==> NoAdmin(s1.table)) then
           && OnlyVersion(s'.table, newId, 1, Scope(g.role, g.rooms, g.access)) && OthersKept(s1.table, s'.table, newId)
           && newId in s'.table && MemberOf(newId, s'.table[newId]) == (if g.member == None then newMember else g.member.value)
         else s'.table == s1.table
  {
    RedeemedStays(s, between, req);
    var g, s1 := s.redeemed[req].grant, After(s, between);
    assert newId !in s1.table by { assert s1.table.Keys <= Ids(s1.table); }
    EnrollmentGrants(s1.table, newId, g.role, key, g.rooms, g.access, g.member, newMember);
  }

  /** From code to device in one run: a minted code that is let through gives its grant to the phone that enrolls. */
  lemma MintedCodeEnrolls(s: State, code: CodeId, waiting: seq<Step>, req: RequestId, remote: bool, between: seq<Step>,
    newId: DeviceId, key: Key, newMember: MemberId)
    requires code in s.codes && s.codes[code].role != Admin && code != Bootstrap
    requires s.codes[code].rooms == None || s.codes[code].role == User
    requires Legal(s, waiting) && forall i :: 0 <= i < |waiting| ==> SparesCode(waiting[i], code)
    requires var s1 := Apply(After(s, waiting), Redeem(req, code, remote));
      && Legal(s1, between) && (forall i :: 0 <= i < |between| ==> SparesRedeemed(between[i], req))
      && Tidy(s) && Enabled(After(s1, between), EnrollRedeemed(req, newId, Some(key), newMember))
    ensures var g, s2 := s.codes[code], After(Apply(After(s, waiting), Redeem(req, code, remote)), between);
      var t' := Apply(s2, EnrollRedeemed(req, newId, Some(key), newMember)).table;
      && OnlyVersion(t', newId, 1, Scope(g.role, g.rooms, g.access)) && OthersKept(s2.table, t', newId)
      && newId in t' && MemberOf(newId, t'[newId]) == (if g.member == None then newMember else g.member.value)
  {
    var s0 := After(s, waiting);
    var s1 := Apply(s0, Redeem(req, code, remote));
    CodeStays(s, waiting, code);
    RedeemingGrants(s0, req, code, remote);
    assert req in s1.redeemed && s1.redeemed[req].grant == s.codes[code];
    hide *;
    RunKeepsTidy(s, waiting);
    StepKeepsTidy(s0, Redeem(req, code, remote));
    RunKeepsTidy(s1, between);
    TidyHasSeen(After(s1, between));
    CodeBecomesDevice(s1, req, between, newId, Some(key), newMember);
  }

  lemma TidyHasSeen(s: State)
    requires Tidy(s)
    ensures Ids(s.table) <= s.seen
  {}

  lemma {:induction false} RunKeepsTidy(s: State, steps: seq<Step>)
    requires Tidy(s) && Legal(s, steps)
    ensures Tidy(After(s, steps))
    decreases |steps|
  {
    if steps != [] {
      StepKeepsTidy(s, steps[0]);
      RunKeepsTidy(Apply(s, steps[0]), steps[1..]);
    }
  }
}
