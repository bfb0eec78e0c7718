/**
 The pairing-code table as its manager edits it: hashed, single-use, expiring
 codes. Each method is one step of the pairing protocol, after dropping what
 has expired.
 */
module PairingManager {
  import opened Documents
  import opened Wrappers
  import opened AuthEngine
  import opened PairingProtocol

  type Hash = string

  datatype Stored = Stored(hash: Hash, grant: Grant, expires: Option<int>)

  type Codes = map<CodeId, Stored>

  datatype Outcome = Granted(code: CodeId, grant: Grant, bootstrap: bool) | CodeInvalid | LanOnly | AlreadyClaimed

  predicate Expired(c: Stored, now: int) { c.expires.Some? && c.expires.value != 0 && c.expires.value <= now }

  function Unexpired(codes: Codes, now: int): Codes { map id | id in codes && !Expired(codes[id], now) :: codes[id] }

  function Dropped(codes: Codes, now: int): set<CodeId> { set id | id in codes && Expired(codes[id], now) }

  /** The protocol's view of the table. */
  function Grants(codes: Codes): map<CodeId, Grant> { map id | id in codes :: codes[id].grant }

  function Matching(codes: Codes, hash: Hash): set<CodeId> { set id | id in codes && codes[id].hash == hash }

  /** A protocol state with this code table, claimed or not. */
  ghost predicate Shows(s: State, codes: Codes, claimed: bool) { s.codes == Grants(codes) && HasAdmin(s.table) == claimed }

  class Manager {
    var codes: Codes

    constructor (stored: Codes)
      ensures codes == stored
    {
      codes := stored;
    }

    method PurgeExpired(now: int)
      modifies this
      ensures codes == Unexpired(old(codes), now)
    {
      var todo := set id | id in codes && Expired(codes[id], now);
      while todo != {}
        invariant forall id :: id in codes <==> id in old(codes) && (Expired(old(codes)[id], now) ==> id in todo)
        invariant forall id :: id in codes ==> codes[id] == old(codes)[id]
        decreases todo
      {
        var id :| id in todo;
        codes := codes - {id};
        todo := todo - {id};
      }
    }

    /** The hash of a fresh code under a fresh id, good for ttl seconds. */
    method GenerateCode(n: nat, hash: Hash, g: Grant, now: int, ttl: int, ghost s: State) returns (minted: bool)
      requires Shows(s, codes, HasAdmin(s.table))
      modifies this
      ensures minted <==> !g.role.Admin? && ScopeFits(g.role, g.rooms)
      ensures Grants(codes) == if minted then Minted(Apply(s, DropCodes(Dropped(old(codes), now))), n, g).codes else s.codes
      ensures minted ==> Pair(n) in codes && codes[Pair(n)] == Stored(hash, g, Some(now + ttl))
    {
      if g.role.Admin? || !ScopeFits(g.role, g.rooms) {
        return false;
      }
      PurgeExpired(now);
      codes := codes[Pair(n) := Stored(hash, g, Some(now + ttl))];
      return true;
    }

    /** Spends the code whose hash was sent, whatever becomes of the enrollment after it. */
    method Redeem(hash: Hash, now: int, remote: bool, claimed: bool) returns (r: Outcome)
      modifies this
      ensures r.CodeInvalid? <==> Matching(Unexpired(old(codes), now), hash) == {}
      ensures !r.CodeInvalid? ==> (exists id :: id in Matching(Unexpired(old(codes), now), hash) && r == Answer(id, old(codes)[id].grant, remote, claimed))
      ensures r.Granted? ==> r.code in Unexpired(old(codes), now)
      ensures codes == if r.Granted? then Unexpired(old(codes), now) - {r.code} else Unexpired(old(codes), now)
    {
      PurgeExpired(now);
      var matching := Matching(codes, hash);
      if matching == {} {
        return CodeInvalid;
      }
      var id :| id in matching;
      var g := codes[id].grant;
      if remote && BootstrapClass(id, g) {
        return LanOnly;
      }
      if id.Bootstrap? && claimed {
        return AlreadyClaimed;
      }
      codes := codes - {id};
      return Granted(id, g, BootstrapClass(id, g));
    }

    method RevokeCode(id: CodeId) returns (existed: bool)
      modifies this
      ensures existed <==> id in old(codes)
      ensures codes == old(codes) - {id}
    {
      existed := id in codes;
      codes := codes - {id};
    }

    method ClearAllCodes()
      modifies this
      ensures codes == map[]
    {
      codes := map[];
    }

    /** With a hash given, the stored one; else a fresh one, unless a code is there already. */
    method ArmBootstrap(hash: Hash, replace: bool, claimed: bool, ghost s: State)
      requires Shows(s, codes, claimed)
      modifies this
      ensures Grants(codes) == Apply(s, PairingProtocol.Step.ArmBootstrap(replace)).codes
      ensures !claimed && (replace || Bootstrap !in old(codes)) ==> Bootstrap in codes && codes[Bootstrap] == Stored(hash, ADMIN_GRANT, None)
    {
      if claimed {
        codes := codes - {Bootstrap};
        return;
      }
      if !replace && Bootstrap in codes {
        return;
      }
      codes := codes[Bootstrap := Stored(hash, ADMIN_GRANT, None)];
    }
  }

  /** Redeeming is the protocol's step, after the expired codes are dropped: the grant goes out once and its code is gone. */
  lemma RedeemIsStep(s: State, codes: Codes, now: int, id: CodeId, remote: bool, req: RequestId)
    requires Shows(s, codes, HasAdmin(s.table)) && id in Unexpired(codes, now)
    ensures var s' := RedeemApply(Apply(s, DropCodes(Dropped(codes, now))), req, id, remote);
      var r := Answer(id, codes[id].grant, remote, HasAdmin(s.table));
      if r.Granted? then
        s'.codes == Grants(Unexpired(codes, now) - {id}) && req in s'.redeemed && s'.redeemed[req] == Redeemed(r.grant, remote)
      else
        s'.codes == Grants(Unexpired(codes, now)) && s'.redeemed == s.redeemed
  {
    var s1 := Apply(s, DropCodes(Dropped(codes, now)));
    assert s1.codes == Grants(Unexpired(codes, now));
  }

  /** A code minted now for ttl seconds is found by its hash before they are over and at no time after. */
  lemma MintedLivesExactly(codes: Codes, n: nat, hash: Hash, g: Grant, now: int, ttl: int, later: int)
    requires now >= 0 && ttl > 0 && Pair(n) in codes && codes[Pair(n)] == Stored(hash, g, Some(now + ttl))
    ensures Pair(n) in Matching(Unexpired(codes, later), hash) <==> later < now + ttl
  {}

  /** The printed owner code never expires. */
  lemma BootstrapNeverExpires(codes: Codes, hash: Hash, later: int)
    requires Bootstrap in codes && codes[Bootstrap] == Stored(hash, ADMIN_GRANT, None)
    ensures Bootstrap in Matching(Unexpired(codes, later), hash)
  {}

  /** What redeeming code id answers: the network class is looked at before the claim. */
  function Answer(id: CodeId, g: Grant, remote: bool, claimed: bool): Outcome {
    if remote && BootstrapClass(id, g) then LanOnly
    else if id.Bootstrap? && claimed then AlreadyClaimed
    else Granted(id, g, BootstrapClass(id, g))
  }
}
