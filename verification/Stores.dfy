/**
 The stores the handlers write to, as one object. Its fields are reassigned in place;
 `View` is the value the specifications speak about. The two planes' tables are kept
 together and told apart by the owner of a row.
 */
module Stores {
  import opened Basics
  import opened Model
  import opened Tokens
  import opened Registries

  /** The scan inside ConsumeBackupCodeAtomic: drop the first code that matches, keep the rest. */
  method WithoutMatch(codes: seq<nat>, code: nat) returns (matched: bool, remaining: seq<nat>)
    ensures matched == (code in codes)
    ensures remaining == RemoveFirst(codes, code)
  {
    matched, remaining := false, [];
    for i := 0 to |codes|
      invariant matched == (code in codes[..i])
      invariant remaining == RemoveFirst(codes[..i], code)
      invariant !matched ==> remaining == codes[..i]
    {
      assert codes[..i + 1] == codes[..i] + [codes[i]];
      RemoveFirstExtends(codes[..i], codes[i], code);
      if !matched && codes[i] == code {
        matched := true;
      } else {
        remaining := remaining + [codes[i]];
      }
    }
    assert codes[..|codes|] == codes;
  }

  class Database {
    var now: Instant
    var next: nat
    var users: map<nat, TenantUser>
    var operators: map<nat, BackofficeUser>
    var rows: map<nat, Row>
    var mfa: map<Principal, MfaRow>
    ghost var spent: set<Factor>
    var links: map<nat, Link>
    var revoked: map<nat, Instant>
    var cutoffs: map<Principal, Cutoff>
    var minted: map<nat, Token>
    var slots: map<nat, Slot>

    ghost function View(): System
      reads this
    {
      System(now, next, users, operators, rows, mfa, spent, links, revoked, cutoffs, minted, slots)
    }

    ghost predicate Valid()
      reads this
    {
      WellFormed(View())
    }

    // ---- refresh rows ----

    /** GetByTokenHash / GetByHash: a scan of the plane's rows. */
    method GetByTokenHash(plane: Principal, h: Hash) returns (found: Option<nat>)
      requires RowsFresh(rows, next)
      ensures found == FindByHash(rows, plane, h)
    {
      var left := rows.Keys;
      while left != {}
        invariant left <= rows.Keys
        invariant forall id :: HashedTo(rows, id, plane, h) ==> id in left
        decreases left
      {
        var id :| id in left;
        left := left - {id};
        if rows[id].hash == h && SamePlane(rows[id].owner, plane) {
          FoundByHash(rows, next, id, plane);
          return Some(id);
        }
      }
      return None;
    }

    method Create(owner: Principal, opening: Opening) returns (id: nat, raw: nat)
      modifies this
      ensures View() == CreateRow(old(View()), owner, opening)
      ensures id == old(next) && raw == old(next) + 1
    {
      id, raw := next, next + 1;
      rows := rows[id := Row(owner, Hash(raw), now, now + REFRESH_TTL, false, opening)];
      next := next + 2;
    }

    method RevokeByID(owner: Principal, id: nat)
      modifies this
      ensures View() == RevokeById(old(View()), owner, id)
    {
      if id in rows && rows[id].owner == owner {
        rows := rows[id := rows[id].(revoked := true)];
      }
    }

    /** RevokeByUserID: every row of the account, one after the other. */
    method RevokeByUserID(owner: Principal)
      modifies this
      ensures View() == RevokeByOwner(old(View()), owner)
    {
      ghost var before := rows;
      var left := rows.Keys;
      while left != {}
        invariant left <= rows.Keys == before.Keys
        invariant View() == old(View()).(rows := rows)
        invariant forall id :: id in rows ==>
          rows[id] == if id in left then before[id] else WithoutRowsOf(before, owner)[id]
        decreases left
      {
        var id :| id in left;
        left := left - {id};
        if rows[id].owner == owner && !rows[id].revoked {
          rows := rows[id := rows[id].(revoked := true)];
        }
      }
      assert rows == WithoutRowsOf(before, owner);
    }

    // ---- tokens and the blacklist ----

    method Sign(g: Grant) returns (jti: nat)
      modifies this
      ensures View() == Mint(old(View()), g) && jti == old(next)
    {
      jti := next;
      minted := minted[jti := Token(ClaimsFor(g, now), g, now)];
      next := next + 1;
    }

    method Blacklist(jti: nat, until: Instant)
      modifies this
      ensures View() == BlacklistToken(old(View()), jti, until)
    {
      if until <= now {
        return;
      }
      revoked := revoked[jti := until];
    }

    method BlacklistUser(p: Principal)
      modifies this
      ensures View() == BlacklistUserTokens(old(View()), p)
    {
      cutoffs := cutoffs[p := Cutoff(Unix(now), now + BLACKLIST_RING)];
    }

    // ---- second factors ----

    method GenerateBackupCodes() returns (codes: seq<nat>)
      modifies this
      ensures codes == FreshCodes(old(next))
      ensures View() == old(View()).(next := old(next) + BACKUP_CODE_COUNT)
    {
      codes := [];
      var n := next;
      while |codes| < BACKUP_CODE_COUNT
        invariant |codes| <= BACKUP_CODE_COUNT
        invariant n == next + |codes|
        invariant codes == CodesFrom(next, |codes|)
      {
        codes := codes + [n];
        n := n + 1;
      }
      next := n;
    }

    method CreateSecret(p: Principal)
      modifies this
      ensures View() == CreateMfa(old(View()), p)
    {
      if p in mfa {
        return;
      }
      mfa := mfa[p := MfaRow(next, next + 1, false, [], 0, 0, 0)];
      next := next + 2;
    }

    method DeleteByUser(p: Principal)
      modifies this
      ensures View() == DeleteMfa(old(View()), p)
    {
      mfa := mfa - {p};
    }

    /** The compare-and-swap: wins only if it moves the stored step forward. */
    method MarkTOTPStepUsedAtomic(p: Principal, step: int) returns (won: bool)
      modifies this
      ensures won == StepWins(old(View()), p, step)
      ensures View() == MarkStep(old(View()), p, step)
    {
      if p !in mfa || mfa[p].lastStep >= step {
        return false;
      }
      spent := spent + {TotpStep(mfa[p].incarnation, step)};
      mfa := mfa[p := mfa[p].(lastStep := step)];
      return true;
    }

    /** Find and remove the first matching code under one lock. */
    method ConsumeBackupCodeAtomic(p: Principal, code: nat) returns (matched: bool)
      modifies this
      ensures matched == CodeMatches(old(View()), p, code)
      ensures View() == ConsumeCode(old(View()), p, code)
    {
      if p !in mfa {
        return false;
      }
      var remaining;
      matched, remaining := WithoutMatch(mfa[p].codes, code);
      if matched {
        spent := spent + {BackupCode(mfa[p].incarnation, code)};
        mfa := mfa[p := mfa[p].(codes := remaining)];
      }
    }

    method UpdateBackupCodes(p: Principal)
      requires p in mfa
      modifies this
      ensures View() == UpdateCodes(old(View()), p)
    {
      var first := next;
      var codes := GenerateBackupCodes();
      mfa := mfa[p := mfa[p].(codes := codes, firstCode := first, issued := BACKUP_CODE_COUNT)];
    }

    method EnableSecret(p: Principal)
      requires p in mfa && !mfa[p].enabled
      modifies this
      ensures View() == EnableMfa(old(View()), p)
    {
      var first := next;
      var codes := GenerateBackupCodes();
      mfa := mfa[p := mfa[p].(enabled := true, codes := codes, firstCode := first, issued := BACKUP_CODE_COUNT)];
    }

    // ---- sign-in links ----

    method CreateLinkFor(user: nat, tenant: nat) returns (link: nat)
      modifies this
      ensures View() == CreateLink(old(View()), user, tenant) && link == old(next)
    {
      link := next;
      links := links[link := Link(user, tenant, now + LINK_TTL, false)];
      next := next + 1;
    }

    method ClaimLink(link: nat) returns (claimed: bool)
      modifies this
      ensures claimed == Claimable(old(View()), link)
      ensures View() == MarkClaimed(old(View()), link)
    {
      if link !in links || links[link].claimed || now > links[link].expiresAt {
        return false;
      }
      links := links[link := links[link].(claimed := true)];
      return true;
    }

    method DeleteLinksByUserID(user: nat)
      modifies this
      ensures View() == DeleteLinksOf(old(View()), user)
    {
      links := map l | l in links && links[l].user != user :: links[l];
    }

    // ---- accounts and slots ----

    method UpdateUser(u: nat, user: TenantUser)
      modifies this
      ensures View() == PutUser(old(View()), u, user)
    {
      users := users[u := user];
    }

    method RecordSlot(jti: nat, slot: Slot)
      modifies this
      ensures View() == PutSlot(old(View()), jti, slot)
    {
      slots := slots[jti := slot];
    }

    method DropSlot(jti: nat)
      modifies this
      ensures View() == DeleteSlot(old(View()), jti)
    {
      slots := slots - {jti};
    }
  }
}
