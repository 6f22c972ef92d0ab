# Verified model of the inventory server's sessions and currency migrations

Two components of the API server are modelled, with two small loops beside them.

**The session-credential protocol.** Tenant users and back-office operators log in on two
planes that share one database of refresh rows, second factors, sign-in links, signed tokens,
a token blacklist with per-account cutoffs, and impersonation return slots.

- `Model`, `Tokens`: the data; what is signed into each kind of token; the gates and parsers that read it back.
- `Registries`: every registry, store and blacklist call as a function on the whole state, the
  `Call` datatype, and the invariant `WellFormed` that all lawful calls keep.
- `Stores`: the same calls as methods that update a `Database` object in place.
- `Issue`, `Auth`, `AuthMfa`, `AuthMagicLink`, `BackofficeAuth`, `AdminUsers`, `AdminImpersonation`:
  the handlers, each a method on `Database` proved equal to an `…Outcome` function (new state and answer).
- `Answers`: exactly when each request succeeds, in terms of the stored state alone; `Refusals`: which guard each
  refusal stands for; `AnswersOverTime`: what a request hands out, any number of requests later.
- `Schedules`, `Revocation`: what holds under **any interleaving of single calls**, by any number of
  concurrent handlers: cutoffs, blacklisting, used factors, plane separation, where tokens come from.
- `Runs`: whole requests (`Request`, `Handle`, `Run`). Every handler is shown to be a schedule of
  lawful calls, so everything about schedules holds for runs.
- `Frames`: what each request leaves alone. `TokenOrigins`: which request signed a token, and the login behind it.
- `Sessions`, `SessionSafety`, `Responses`, `Endings`, `Factors`: what holds over **runs of atomic handlers**:
  one live credential per login, replay containment, second factor before session, cookie/row/claim
  agreement, logouts, blocks, impersonation lifecycles, factor conservation.
- `Witnesses`: concrete runs from an initial state for the results that say something can go wrong.
- `MfaInterleaving`: second-factor requests split into load, match, take and act, any number at once.

**Currency migration.** `Conversion` (one commodity), `Preview` (the fold, the stable sort, the
truncation, the state hash) and `Migrations` (the guarded start, the in-flight rule, the daily cap
over runs, the retry hint).

**Beside them.** `OpenLoans` (the paging loop) and `Origins` (the origin list parser), both over `Deduplication`.

Ids, cookie values, token ids and one-time codes are drawn from one counter, which stands for
"random and never repeated"; hashes are injective, signatures cannot be forged, and a time-based
code is injective in secret and step. Time is in nanoseconds, so that the whole-second `iat` and
`exp` claims are rounded as in the program. Fields marked (history) in `Model` are read by no
handler; statements are about them.

Calls into the database, the blacklist and the slot store are assumed to succeed, with these
exceptions, which are inputs (`Infra`): storing a new refresh row, signing a token, and filing a
return slot can each fail, and the roll-back paths are modelled. Rate limits, lockouts, password
checks and request decoding are boolean inputs.

## What the proofs turned up

- The blacklist ring of twice the access-token lifetime is not exactly tight for the 30-minute
  impersonation ceiling: because claims are whole seconds, one second and one nanosecond less would
  do (`Revocation.RingCoversExactly`).
- A cutoff stops exactly the tokens of earlier seconds, on either plane
  (`Revocation.CutoffRefusesExactly`). So a token stamped in the second of a block works again once
  the account is unblocked, until it expires, and no other token does (`Endings.UnblockRevivesExactly`).
- Ending an impersonation re-plants the captured cookie without checking it, and the comment in the
  handler calls it still valid. It works exactly if its row is still stored, unrevoked and unexpired
  and the owner is active and not cut off (`Endings.ReplantedCookieWorksExactly`, and over runs
  `Endings.CapturedCookieWorksExactly`); `Witnesses.ReplantedCookieGoodAndDead` is a run of each kind.
  It is the operator's own exactly when the cookie captured at the start was
  (`Endings.RestoredRowIsCapturedRow`).
- A replay revokes rows only. Every row live later belongs to a password or link handled after it, to
  a step 2 whose challenge was signed after it, or to a step 2 whose challenge was signed before it
  and had not expired (`SessionSafety.ReplayIsContained`); the last case happens
  (`Witnesses.StepTwoOutlivesReplay`). A consumed cookie counts as a replay only while its row is
  stored (`SessionSafety.ConsumedCookieIsRefused`).
- The daily cap holds exactly as long as no interleaved insert comes after the cap has been reached
  (`Migrations.CapHoldsExactly`); without that, three migrations complete in a day from empty books
  (`Migrations.InterleavedStartsBreakTheCap`). The state hash does not see money moved between
  commodities (`Preview.RedistributionMatches`).
- A time code succeeds once per enrollment, not once: a request that has matched its code on an
  enrollment that is then replaced wins on the successor (`MfaInterleaving.MatchWinsExactly`,
  `MfaInterleaving.SameCodeSucceedsTwice`).

## Model

| member | source | states |
|---|---|---|
| `Tokens.ClampImpersonationTtl` | go/apiserver/admin_impersonation.go:158-166 | the lifetime is positive, never above 30 minutes, never longer than configured, and unchanged when in range |
| `Tokens.BackofficeGateReadsSessions` | go/apiserver/backoffice_middleware.go:100-157 | an unexpired token reads as operator a exactly if it was signed as a's session or as a's restored session |
| `Tokens.TenantGateReadsSessions` | go/apiserver/jwt_middleware.go:47-115 | an unexpired token reads as user u exactly if it was signed as u's session or as an impersonation of u |
| `Tokens.StepTwoReadsItsOwnChallenge` | go/apiserver/auth_mfa.go:778-818 | each plane's step-2 parser accepts exactly the unexpired challenges its own plane signed, for that account and tenant |
| `Tokens.LifetimeBound` | go/apiserver/admin_impersonation.go:670-685 | no token outlives its issue by more than 30 minutes, in whole seconds |
| `Registries.RowsStayFresh` | go/registry/memory/refresh_tokens.go:30-49 | no call makes two refresh rows share a hash |
| `Registries.TokensStaySound` | go/apiserver/admin_impersonation.go:670-709 | in every state each signed token carries its grant's claims, each impersonation was obtained with a session of that operator, each restored session with an impersonation of that operator |
| `Registries.SlotsStaySound` | go/services/impersonation_service.go:137-167 | every slot names the operator and target of its own token and lasts at least to the token's exp |
| `Registries.MarkStepKeepsLedger` | go/registry/memory/user_mfa_secrets.go:136-165 | the compare-and-swap keeps the stored step at or past every used step |
| `Registries.ConsumeCodeKeepsLedger` | go/registry/memory/user_mfa_secrets.go:85-128 | taking a code leaves the stored list equal to the issued codes not yet used, each once |
| `Registries.UpdateCodesKeepsLedger` | go/registry/memory/user_mfa_secrets.go:171-190 | regenerating keeps list and ledger in step and leaves the stored step alone |
| `Registries.EnableMfaKeepsLedger` | go/apiserver/auth_mfa.go:249-342 | enabling an enrollment keeps list and ledger in step |
| `Registries.CallKeepsWellFormed` | go/apiserver/auth.go:369-541 | every lawful call keeps the invariant: rows, tokens, slots, ledger, links and revocations |
| `Registries.RemoveFirstTakesOne` | go/services/mfa_service.go:356-374 | consuming removes one occurrence of the code and nothing else |
| `Stores.WithoutMatch` | go/registry/memory/user_mfa_secrets.go:85-128 | the scan reports whether the code is listed and returns the list without its first occurrence |
| `Stores.Database.GetByTokenHash` | go/registry/memory/refresh_tokens.go:52-65 | finds the plane's row with this hash, or none if there is none |
| `Stores.Database.Create` | go/registry/memory/refresh_tokens.go:30-49 | adds one unrevoked 30-day row with a fresh id and a fresh cookie value |
| `Stores.Database.RevokeByID` | go/registry/memory/refresh_tokens.go:144-157 | revokes the row if it is the account's, and nothing else |
| `Stores.Database.RevokeByUserID` | go/registry/memory/refresh_tokens.go:126-138 | revokes every row of the account and no other |
| `Stores.Database.Sign` | go/apiserver/auth.go:1560-1592 | signs the grant's claims at the current time under a fresh jti |
| `Stores.Database.Blacklist` | go/services/token_blacklist.go:168-176 | enters the jti until the given time, unless that has passed |
| `Stores.Database.BlacklistUser` | go/services/token_blacklist.go:195-201 | replaces the account's cutoff by the current second, kept for twice the access lifetime |
| `Stores.Database.GenerateBackupCodes` | go/services/mfa_service.go:315-339 | ten codes no list has held before |
| `Stores.Database.CreateSecret` | go/registry/memory/user_mfa_secrets.go:29-61 | a new incarnation with a new secret, pending, no codes; refused if a row exists |
| `Stores.Database.MarkTOTPStepUsedAtomic` | go/registry/memory/user_mfa_secrets.go:136-165 | wins exactly if the step is later than the stored one, and then stores it |
| `Stores.Database.ConsumeBackupCodeAtomic` | go/registry/memory/user_mfa_secrets.go:85-128 | matches exactly if the code is listed, and then removes one occurrence |
| `Stores.Database.UpdateBackupCodes` | go/registry/memory/user_mfa_secrets.go:171-190 | replaces the code list and nothing else of the row |
| `Stores.Database.EnableSecret` | go/apiserver/auth_mfa.go:306-338 | turns the pending row on and gives it ten fresh codes |
| `Stores.Database.DeleteByUser` | go/registry/memory/user_mfa_secrets.go:192-209 | removes the account's enrollment |
| `Stores.Database.CreateLinkFor` | go/registry/memory/magic_link_tokens.go:32-54 | a fresh unclaimed link for 15 minutes |
| `Stores.Database.ClaimLink` | go/registry/memory/magic_link_tokens.go:99-126 | succeeds exactly for a stored, unclaimed, unexpired link, and claims it |
| `Stores.Database.DeleteLinksByUserID` | go/registry/memory/magic_link_tokens.go:74-90 | drops the account's links and no other |
| `Stores.Database.RecordSlot` | go/services/impersonation_service.go:137-143 | files the slot under the jti |
| `Stores.Database.DropSlot` | go/services/impersonation_service.go:162-167 | removes the slot of the jti |
| `Issue.IssueSession` | go/apiserver/auth.go:290-310 | row, then token naming the row, then cookie and token; a failed signature takes the row back |
| `Issue.RotateSession` | go/apiserver/auth.go:478-523 | the new row and token first, then the consumed row is revoked; a failed rotation leaves the consumed row live |
| `Issue.IssueChallenge` | go/apiserver/auth_mfa.go:746-770 | signs the five-minute step-1 challenge |
| `Issue.MatchTotpStep` | go/services/mfa_service.go:287-305 | the step the code stands for if it is within one step of now on this secret, else none |
| `Issue.ConsumeAnyCode` | go/apiserver/auth_mfa.go:681-714 | uses up the time code if it matches and wins, else the backup code if listed, else nothing |
| `Auth.RequireAuth` | go/apiserver/jwt_middleware.go:194-238 | the tenant gate: claims, blacklist, cutoff, account, in that order, with the matching refusal |
| `Auth.CompleteFirstFactor` | go/apiserver/auth.go:1417-1452 | a challenge if a second factor is enabled, else a session |
| `Auth.Login` | go/apiserver/auth.go:196-332 | lockout, account, password, active, then the second-factor gate |
| `Auth.Refresh` | go/apiserver/auth.go:369-541 | refuses impersonation, missing, unknown, expired, inactive and cut-off cookies; a revoked one ends every session of the account; otherwise rotates |
| `Auth.UserFromBrowserSession` | go/apiserver/auth.go:1761-1808 | bearer first, then cookie, with the checks of refresh and no rotation |
| `Auth.BlacklistAccessToken` | go/apiserver/auth.go:670-717 | blacklists a signed bearer until its exp, capped |
| `Auth.RevokeRefreshToken` | go/apiserver/auth.go:720-734 | revokes the row the cookie hashes to, if any |
| `Auth.Logout` | go/apiserver/auth.go:762-829 | bearer blacklisted and cookie's row revoked, always accepted |
| `Auth.EndAllSessions` | go/apiserver/auth_mfa.go:356-425 | every row revoked, bearer blacklisted, account cut off |
| `Auth.ChangePassword` | go/apiserver/auth.go:1188-1291 | refused requests change nothing; an accepted one ends every session |
| `AuthMfa.Setup` | go/apiserver/auth_mfa.go:166-235 | refused while enabled; otherwise replaces any pending enrollment |
| `AuthMfa.Verify` | go/apiserver/auth_mfa.go:249-342 | enables a pending enrollment if the code matches its secret, using up no step |
| `AuthMfa.Disable` | go/apiserver/auth_mfa.go:356-425 | with password and one factor: enrollment deleted and every session ended; accepted without effect when not enabled |
| `AuthMfa.Regenerate` | go/apiserver/auth_mfa.go:440-518 | with a winning time code: the step is used and the list replaced |
| `AuthMfa.CompleteStepTwo` | go/apiserver/auth_mfa.go:617-670 | one factor used, challenge blacklisted, session opened that names both |
| `AuthMfa.LoginMfa` | go/apiserver/auth_mfa.go:534-589 | step 2 of the tenant login, with every refusal before and after the code |
| `AuthMagicLink.RequestLink` | go/apiserver/auth_magic_link.go:55-100 | same answer for everyone; an active account's older links are superseded by one new link |
| `AuthMagicLink.Verify` | go/apiserver/auth_magic_link.go:118-218 | claims first, then tenant, account, active and lockout; then the second-factor gate |
| `BackofficeAuth.RequireBackofficeAuth` | go/apiserver/backoffice_middleware.go:46-89 | the back-office gate: claims, blacklist, cutoff, operator, in that order |
| `BackofficeAuth.BackofficeLogin` | go/apiserver/backoffice_auth.go:326-491 | an enforced operator gets a challenge, or 501 without enrollment, never a session |
| `BackofficeAuth.BackofficeLoginMfa` | go/apiserver/backoffice_auth_mfa.go:49-118 | step 2 of the operator login |
| `BackofficeAuth.BackofficeRefresh` | go/apiserver/backoffice_auth.go:610-722 | origin and cookie checks, a revoked cookie is only refused, otherwise rotates |
| `BackofficeAuth.BackofficeLogout` | go/apiserver/backoffice_auth.go:732-754 | revokes the bearer only if it is of this plane, and the cookie's row |
| `AdminUsers.ApplyBlockCascade` | go/apiserver/admin_users.go:630-661 | every row revoked and the account cut off |
| `AdminUsers.BlockUser` | go/apiserver/admin_users.go:356-468 | self-block and unforced admin block refused; an already blocked account gets the cascade again |
| `AdminUsers.UnblockUser` | go/apiserver/admin_users.go:490-542 | sets the flag, idempotent |
| `AdminImpersonation.StartImpersonation` | go/apiserver/admin_impersonation.go:195-321 | role, rate limit and target guards, then token and slot that expire together |
| `AdminImpersonation.EndImpersonation` | go/apiserver/admin_impersonation.go:406-631 | token and slot must agree; token blacklisted, slot dropped, operator's session restored with the captured cookie |
| `Answers.TokenLifetimes` | go/apiserver/auth.go:1560-1592 | access tokens last 15 minutes, challenges 5, impersonations as long as asked, in whole seconds |
| `Answers.StoredLifetimes` | go/apiserver/auth.go:26-32 | rows last 30 days, links 15 minutes, cutoffs 30 minutes; a list has ten codes |
| `Answers.ImpersonationLifetime` | go/apiserver/admin_impersonation.go:158-166 | the lifetime is the configured one if positive and at most half an hour, else half an hour |
| `Answers.TenantGateExactly` | go/apiserver/jwt_middleware.go:194-238 | a token passes exactly if it is a living session or impersonation of that active user and no cutoff is later than its second |
| `Answers.OperatorGateExactly` | go/apiserver/backoffice_middleware.go:46-89 | the same for operators, with restored sessions instead of impersonations |
| `Answers.LoginExactly` | go/apiserver/auth.go:196-332 | a session exactly for the right password of an active, not locked out user without a second factor, a challenge for the user in the user's tenant exactly with one; the row is that user's; any other answer changes nothing |
| `Answers.OperatorLoginExactly` | go/apiserver/backoffice_auth.go:326-491 | a session exactly without enforcement, a challenge exactly with enforcement and enrollment, given the right password of an active, not locked out operator |
| `Answers.LinkVerifyExactly` | go/apiserver/auth_magic_link.go:118-218 | a link opens a session, or a challenge, of its own active user exactly if stored, unclaimed, unexpired, presented in its own tenant and the user is not locked out |
| `Answers.LinkRequestExactly` | go/apiserver/auth_magic_link.go:55-100 | a link of the user and tenant is stored exactly for an active user, and nothing changes otherwise |
| `Answers.MatchedExactly` | go/services/mfa_service.go:287-305 | a time code matches exactly if it is of this secret and of the current half minute or a neighbour, and then stands for its own step |
| `Answers.TotpWinsExactly` | go/apiserver/auth_mfa.go:725-740 | a time code is taken exactly if it is of the stored secret, in the window, and later than the last one used |
| `Answers.FactorExactly` | go/apiserver/auth_mfa.go:681-714 | a one-time code is taken exactly if the time code wins or the backup code is listed, the time code first |
| `Answers.LoginMfaExactly` | go/apiserver/auth_mfa.go:534-589 | step 2 signs in exactly with an unexpired challenge of an active, not locked out, enrolled user in the tenant it was signed for, and a factor that is taken |
| `Answers.OperatorLoginMfaExactly` | go/apiserver/backoffice_auth_mfa.go:49-118 | the same for operators |
| `Answers.StepTwoRevokesChallenge` | go/apiserver/auth_mfa.go:617-670 | the challenge of a step 2 that signs in is on the blacklist until its exp |
| `Answers.SetupExactly` | go/apiserver/auth_mfa.go:166-235 | accepted exactly for an admitted user without an enabled factor, leaving a pending enrollment with a new secret |
| `Answers.VerifyExactly` | go/apiserver/auth_mfa.go:249-342 | accepted exactly for a pending enrollment and a code of its own secret in the window; enabled with ten codes, secret kept |
| `Answers.DisableExactly` | go/apiserver/auth_mfa.go:356-425 | accepted exactly with the password and, if enabled, a factor that is taken; then the enrollment is gone |
| `Answers.RegenerateExactly` | go/apiserver/auth_mfa.go:440-518 | accepted exactly with a time code that is taken on an enabled enrollment; a backup code does not do |
| `Answers.ChangePasswordExactly` | go/apiserver/auth.go:1188-1291 | accepted exactly for an admitted bearer and acceptable passwords; a refusal changes nothing |
| `Answers.RefreshExactly` | go/apiserver/auth.go:369-541 | a session exactly if the bearer is no impersonation and the cookie is of a stored, live, unexpired row of an active user that no cutoff covers; a refusal changes the state only for a revoked row |
| `Answers.OperatorRefreshExactly` | go/apiserver/backoffice_auth.go:610-722 | the same with the origin check; a refusal changes nothing |
| `Answers.BrowserExactly` | go/apiserver/auth.go:1761-1808 | the user is the admitted bearer's, else the owner of a cookie a refresh would rotate, and nobody while impersonating |
| `Answers.CutoffOnRefresh` | go/apiserver/auth.go:464-476 | on either plane, after a cutoff a row that is otherwise good rotates exactly if it was created in a later second or the cutoff has lapsed |
| `Answers.LogoutExactly` | go/apiserver/auth.go:762-829 | the bearer it is sent with lives no more, the row of its cookie is revoked, each without the other, and no other row or entry changes |
| `Answers.OperatorLogoutExactly` | go/apiserver/backoffice_auth.go:732-754 | the same for operators, with bearers of the back-office plane only |
| `Answers.OperatorBearersExactly` | go/apiserver/backoffice_auth.go:945-979 | those are an operator's session, restored session or challenge, expired or not |
| `Answers.BlockExactly` | go/apiserver/admin_users.go:356-468 | accepted exactly from an admitted operator, for a known target with another id than their own, and with force if the target is an active system admin |
| `Answers.UnblockExactly` | go/apiserver/admin_users.go:490-542 | accepted exactly from an admitted operator for a known target, which is active afterwards |
| `Answers.StartExactly` | go/apiserver/admin_impersonation.go:195-321 | started exactly by an admitted platform admin within the rate limit for an active target that is no system admin, with one slot and one token that expire together |
| `Refusals.TenantGateRefusals` | go/apiserver/jwt_middleware.go:47-238 | which token each refusal of the tenant gate stands for: missing, unsigned, expired, challenge, operator's, blacklisted, cut off, unknown user, disabled user |
| `Refusals.OperatorGateRefusals` | go/apiserver/backoffice_middleware.go:46-157 | the same for the back-office gate |
| `Refusals.LoginRefusals` | go/apiserver/auth.go:196-332 | unknown account and wrong password get one answer; only the right password is told that the account is disabled |
| `Refusals.OperatorLoginRefusals` | go/apiserver/backoffice_auth.go:326-491 | unknown, disabled and wrong password get one answer; an enforced operator without enrollment gets 501 only with the right password |
| `Refusals.LinkVerifyRefusals` | go/apiserver/auth_magic_link.go:118-218 | which link each refusal stands for; a refused link is claimed all the same and nothing else changes |
| `Refusals.StepTwoRefusals` | go/apiserver/auth_mfa.go:617-670 | invalid token if no factor is enabled, invalid code if it is not taken, and nothing changes |
| `Refusals.LoginMfaRefusals` | go/apiserver/auth_mfa.go:534-589 | which of no code, unusable challenge, lockout and wrong code each refusal of step 2 stands for; none changes anything |
| `Refusals.OperatorLoginMfaRefusals` | go/apiserver/backoffice_auth_mfa.go:49-118 | the same for operators |
| `Refusals.RefreshRefusals` | go/apiserver/auth.go:369-476 | which cookie each refusal stands for: borrowed, missing, unknown, revoked or expired, inactive or cut off |
| `Refusals.RefusedRefreshExactly` | go/apiserver/auth.go:416-434 | of the refusals exactly that of a revoked cookie has a consequence: every row of its owner is revoked, and nothing else |
| `Refusals.OperatorRefreshRefusals` | go/apiserver/backoffice_auth.go:610-722 | the same answers for operators, with the origin first |
| `Refusals.EnrollmentRefusals` | go/apiserver/auth_mfa.go:166-518 | for setup, verify and regenerate: gate refusals are passed on, and each other refusal stands for its guard |
| `Refusals.DisableRefusals` | go/apiserver/auth_mfa.go:356-425 | wrong password before wrong code |
| `Refusals.BlockRefusals` | go/apiserver/admin_users.go:356-542 | for block and unblock: malformed, unknown, own id, unforced admin, each exactly; blocking a blocked admin again needs no force |
| `Refusals.StartRefusals` | go/apiserver/admin_impersonation.go:195-244 | role, rate limit, unknown, admin, blocked, each exactly; a blocked admin is refused as an admin |
| `Refusals.EndRefusals` | go/apiserver/admin_impersonation.go:406-511 | which token each refusal of an end stands for; where the operator is gone the impersonation is ended all the same, otherwise nothing changes |
| `AnswersOverTime.RunKeepsSlotExactly` | go/services/impersonation_service.go:137-167 | a filed slot is there at the end of a run exactly if no request of the run ended it |
| `AnswersOverTime.EndWorksExactly` | go/apiserver/admin_impersonation.go:406-511 | any run after its start, an impersonation can be ended up to and including its expiry exactly if nobody has and the operator exists; later the end is refused and changes nothing |
| `AnswersOverTime.LoginThenStepTwo` | go/apiserver/auth.go:1417-1452 | any run after step 1, its challenge signs in exactly within five minutes, for the same active user still in that tenant, with a factor that is taken |
| `AnswersOverTime.LinkThenStepTwo` | go/apiserver/auth_magic_link.go:118-218 | the same for the challenge of a link |
| `AnswersOverTime.OperatorLoginThenStepTwo` | go/apiserver/backoffice_auth_mfa.go:49-118 | the same for an operator's challenge |
| `AnswersOverTime.RefreshAfterPasswordChange` | go/apiserver/auth.go:464-476 | password change, wait, login, wait, refresh: works exactly if the session is younger than 30 days and was opened in a later second than the change or the cutoff has lapsed |
| `Schedules.CallKeepsPromise` | go/services/token_blacklist.go:195-222 | no lawful call takes back a revoked row, a cutoff, a revoked token, a burnt link, a used step or factor |
| `Schedules.PromiseKept` | go/services/token_blacklist.go:168-222 | nor does any schedule of lawful calls |
| `Schedules.LawfulStaysLawful` | go/apiserver/admin_impersonation.go:406-511 | a call a handler has decided on stays lawful whatever call gets in first |
| `Revocation.CutoffOutlivesTokens` | go/apiserver/admin_users.go:630-661 | after a cutoff no token of an earlier second gets that account through any gate again, under any schedule |
| `Revocation.CutoffRefusesExactly` | go/apiserver/backoffice_middleware.go:343-354 | on either plane, at the cutoff exactly the account's admitted tokens of earlier seconds stop being admitted |
| `Revocation.RingCoversExactly` | go/apiserver/auth.go:26-32 | a ring covers every lifetime of s seconds exactly if it is at least s seconds less one second and one nanosecond |
| `Revocation.CapIsNeverReached` | go/apiserver/auth.go:700-717 | for every signed token the capped expiry is its exp |
| `Revocation.RevocationIsPermanent` | go/apiserver/admin_impersonation.go:717-724 | a token blacklisted to its exp passes no gate in any later state |
| `Revocation.LogoutIsPermanent` | go/apiserver/auth.go:670-717 | so does one blacklisted at logout, for every kind of token and despite the cap |
| `Revocation.StepWinsOnce` | go/apiserver/auth_mfa.go:725-740 | section 5.2 of RFC 6238: after a step wins, neither it nor an earlier one wins on that enrollment |
| `Revocation.CodeMatchesOnce` | go/apiserver/auth_mfa.go:681-714 | a redeemed backup code never matches again, whatever is regenerated in between |
| `Revocation.CodesAreConserved` | go/apiserver/auth_mfa.go:499-515 | the stored list is the issued codes less the redeemed ones, so the counts add up, under any schedule |
| `Revocation.EnrollmentEndsOnlyByDelete` | go/registry/memory/user_mfa_secrets.go:29-61 | only a delete ends an enrollment; no other call, another create included, changes its secret, and only enabling turns it on |
| `Revocation.LinkIsClaimedOnce` | go/registry/memory/magic_link_tokens.go:99-126 | a claimed link cannot be claimed again, under any schedule |
| `Revocation.RevokedRowStaysRevoked` | go/apiserver/auth.go:478-523 | no schedule makes a revoked row valid again |
| `Revocation.RootIsOwnLogin` | go/apiserver/admin_impersonation.go:195-244 | following the tokens that starts and ends were obtained with, every operator or impersonation token leads back to a session token of that operator; the request behind it is `TokenOrigins.OperatorRestsOnLogin` |
| `Revocation.PlanesStaySeparate` | go/apiserver/backoffice_middleware.go:100-157 | under any schedule, whatever passes the back-office gate is an active operator's session or restored session, leads back to a session token of the same operator, and opens nothing of the tenant plane |
| `Revocation.ChallengesOpenOnlyStepTwo` | go/apiserver/backoffice_auth_mfa.go:215-285 | a challenge passes no gate and only its own plane's step 2 |
| `Revocation.SlotNamesItsStarter` | go/apiserver/admin_impersonation.go:250-289 | in any reachable state a slot names the operator its token was signed for |
| `Revocation.BannerAgreesWithTheGates` | go/apiserver/backoffice_middleware.go:252-339 | the wider gate admits exactly what the back-office gate admits, and impersonation tokens exactly where the tenant gate does |
| `Revocation.ImpersonationTokensAreRecognised` | go/apiserver/admin_impersonation.go:356-383 | the end parser and the refresh guard pick out exactly the signed impersonation tokens, expired or not |
| `Runs.HandlerIsLawful` | go/apiserver/auth.go:196-1291 | every handler is a schedule of lawful calls and keeps the invariant |
| `Runs.RunIsLawful` | go/apiserver/auth.go:196-1291 | so is every run of requests |
| `Frames.HandlerFrame` | go/apiserver/admin_impersonation.go:250-289 | any request: old slots are kept or dropped, never rewritten; only code-decided requests touch the ledger of used factors, only enrollment requests the second factors |
| `Sessions.FactorIsNew` | go/apiserver/auth_mfa.go:681-740 | the factor a request uses was never used before and is all that is added to the ledger |
| `Sessions.HandlerMovesRows` | go/apiserver/auth.go:478-523 | a request revokes and drops rows and adds at most one: an earned login, of the link's own user if by a link, or the successor of a live row that is then revoked |
| `SessionSafety.HandlerKeepsSafe` | go/apiserver/auth.go:478-523 | every request keeps one live row per login, proven logins, and distinct proofs |
| `SessionSafety.OneLiveCredentialPerLogin` | go/apiserver/backoffice_auth.go:679-709 | in every reachable state of either plane the rows of one login hold at most one live row |
| `SessionSafety.SecondFactorBeforeSession` | go/apiserver/auth.go:1417-1452 | in every reachable state a session that owed a second factor rests on a used factor and a challenge for that account, and no factor or link stands behind two logins |
| `SessionSafety.NewSessionIsEarned` | go/apiserver/auth_mfa.go:577-586 | a new row continues a live one, or is a login that used up a fresh factor if the account owed one |
| `SessionSafety.FirstFactorIsNotEnough` | go/apiserver/backoffice_auth.go:445-491 | an enforced operator and an enrolled user get no session from step 1 |
| `SessionSafety.ReplayIsContained` | go/apiserver/auth.go:416-434 | a replayed cookie is refused, all rows of the account are revoked, and every row live later belongs to a password or link handled after it, a step 2 with a challenge signed after it, or a step 2 answering in time a challenge signed before it |
| `SessionSafety.ConsumedCookieIsRefused` | go/apiserver/auth.go:369-541 | a consumed cookie is refused after any run, as a replay exactly if its row is still stored |
| `SessionSafety.ReplayLeavesStepTwoOpen` | go/apiserver/auth_mfa.go:534-589 | a pending step 2 is answered exactly as without the replay |
| `Responses.SessionAgrees` | go/apiserver/auth.go:1560-1633 | cookie, row and rti of a new session agree and its token passes the gate at once |
| `Responses.RotationIsHonest` | go/apiserver/backoffice_auth.go:684-719 | rotation exchanges one live row for one new one; a failed rotation leaves the live rows as they were |
| `Responses.EveryResponseIsHonest` | go/apiserver/auth.go:1560-1633 | every answer of every handler: a session is the one new live row, named by cookie and rti, for an active account; a failure leaves the live rows exactly as they were; no other answer makes a row live |
| `Responses.BrowserAgreesWithRefresh` | go/apiserver/auth.go:1761-1808 | the cookie identifies a browser exactly when a refresh with it would succeed, as the same user |
| `Endings.ClearedForGood` | go/apiserver/admin_users.go:356-468 | after a block, password change or disabled second factor no earlier session or earlier-second token of the user works, in any later run |
| `Endings.ClearingBearerIsRefused` | go/apiserver/auth.go:1188-1291 | the bearer of an accepted password change or disable is refused ever after, even if stamped in that second |
| `Endings.BlockShutsOut` | go/apiserver/admin_users.go:356-468 | a blocked account is inactive and passes no gate with any token |
| `Endings.UnblockRestoresTheFlagOnly` | go/apiserver/admin_users.go:490-542 | an unblock changes the active flag and nothing else |
| `Endings.UnblockRevivesExactly` | go/apiserver/admin_users.go:490-542 | of the tokens admitted at the block, any time later the unblock brings back exactly those stamped in the second of the block and not expired |
| `Endings.LoggedOutForGood` | go/apiserver/auth.go:762-829 | after logout the cookie never refreshes and the bearer passes no gate, under any schedule |
| `Endings.OperatorLoggedOutForGood` | go/apiserver/backoffice_auth.go:732-754 | the same for operators, all three gates included |
| `Endings.OperatorLogoutSparesTenantTokens` | go/apiserver/backoffice_auth.go:945-979 | the back-office logout cannot revoke a tenant, impersonation or tenant challenge token |
| `Endings.OnlyTheNewestLinkWorks` | go/apiserver/auth_magic_link.go:222-272 | after a request the account's only link is the new one, claimable for 15 minutes |
| `Endings.LinkWorksOnce` | go/apiserver/auth_magic_link.go:141-217 | a link once presented is answered as invalid ever after, under any schedule |
| `Endings.StartOpensTheTargetOnly` | go/apiserver/admin_impersonation.go:195-321 | a start needs an active platform admin and an active ordinary target; its token opens the tenant plane and the banner as that target only, and no gate after half an hour |
| `Endings.EndedAtMostOnce` | go/apiserver/admin_impersonation.go:406-511 | over any run each start is ended at most once |
| `Endings.EndedIsNeverAdmitted` | go/apiserver/admin_impersonation.go:717-724 | an ended impersonation token passes no gate again, under any schedule |
| `Endings.EndRestoresTheStarter` | go/apiserver/admin_impersonation.go:583-709 | the restored session is the starter's own, in any state any schedule reaches |
| `Endings.RestoredRowIsCapturedRow` | go/apiserver/admin_impersonation.go:583-648 | the restored rti names the captured row or nothing, and a row of the operator exactly if the captured cookie was theirs |
| `Endings.RotatedCookieIsReplantedDead` | go/apiserver/admin_impersonation.go:605-622 | if the captured session was rotated meanwhile, the re-planted cookie is refused |
| `Endings.ReplantedCookieWorksExactly` | go/apiserver/admin_impersonation.go:605-622 | the re-planted cookie refreshes exactly if its row is stored, unrevoked and unexpired and its owner active and not cut off |
| `Endings.CapturedCookieWorksExactly` | go/apiserver/admin_impersonation.go:583-648 | the same over any run from the start, in terms of the row captured there |
| `Witnesses.ReplantedCookieGoodAndDead` | go/apiserver/admin_impersonation.go:605-622 | from an initial state, a run whose re-planted cookie works and one whose re-planted cookie is refused |
| `TokenOrigins.HandlerSigns` | go/apiserver/backoffice_auth.go:785-802 | a request signs a session token only for the account whose right password, serving link, challenge and factor, or rotatable cookie it presents, and for the live row it names; a challenge only for the account whose first factor it presents; an impersonation only as a start by the admitted operator; a restored session only as the end of that operator's slot |
| `TokenOrigins.EveryTokenHasItsRequest` | go/apiserver/backoffice_auth.go:557-587 | in a run every new token was signed by one of the requests and is unchanged since |
| `TokenOrigins.RunIsBacked` | go/apiserver/auth.go:1560-1633 | in every reachable state each session token carries a proven login and agrees with its row's owner and login while the row is stored |
| `TokenOrigins.OperatorRestsOnLogin` | go/apiserver/admin_impersonation.go:195-244 | in every run each operator or impersonation token leads back to a session token that a back-office login with the operator's password, a step 2 with their challenge and factor, or a refresh of their cookie signed while they were active, and whose login is proven |
| `TokenOrigins.GateRestsOnLogin` | go/apiserver/backoffice_middleware.go:100-157 | the same for whatever passes the back-office gate |
| `TokenOrigins.EnforcedOperatorUsedAFactor` | go/apiserver/backoffice_auth.go:445-491 | for an operator under enforcement throughout, that login used up a second factor, also behind an impersonation they started |
| `Witnesses.StepTwoOutlivesReplay` | go/apiserver/auth_mfa.go:534-589 | from an initial state, a run in which a challenge signed before a replay is answered after it and a row is live again |
| `Factors.AttemptConserves` | go/apiserver/auth_mfa.go:681-714 | an attempt whose code is taken uses up exactly one fresh factor, any other attempt none |
| `Factors.OthersUseNone` | go/apiserver/auth_mfa.go:306-338 | no other request uses up a factor, verify included |
| `Factors.SpentIsNotAccepted` | go/apiserver/backoffice_auth_mfa.go:126-181 | a used factor is never accepted again, on either plane |
| `Factors.TotpCodeWorksOnce` | go/apiserver/auth_mfa.go:725-740 | a code once taken on an enrollment is never taken there again |
| `Factors.SecondFactorSwitches` | go/apiserver/auth_mfa.go:356-425 | an enabled second factor goes off exactly by the user's own disable with the password and a code that is taken, which uses one factor; one that is off goes on exactly by the user's verify of a pending enrollment with a code of its own secret in the window |
| `Factors.RegenerateReplacesCodes` | go/apiserver/auth_mfa.go:440-518 | no old code works, ten new ones do, and the step ledger has moved on |
| `MfaInterleaving.EveryInterleavingIsAccounted` | go/apiserver/auth_mfa.go:681-740 | under any interleaving threads hold distinct factors and the ledger grows by exactly those |
| `MfaInterleaving.AtMostOneSuccessPerFactor` | go/apiserver/auth_mfa.go:725-740 | of any number of concurrent requests at most one succeeds on a time step or backup code of one enrollment |
| `MfaInterleaving.SameStepMeansOtherEnrollment` | go/apiserver/auth_mfa.go:725-740 | two requests succeed on the same time step only on different enrollments |
| `MfaInterleaving.MatchWinsExactly` | go/apiserver/auth_mfa.go:725-740 | a matched request wins exactly if its step is later than the one stored by then, on whatever enrollment the account then has |
| `MfaInterleaving.StaleMatchWinsOnSuccessor` | go/apiserver/auth_mfa.go:356-425 | a match on an enrollment that is then replaced wins on the successor exactly if its step is positive |
| `MfaInterleaving.SameCodeSucceedsTwice` | go/apiserver/auth_mfa.go:681-740 | one code taken by two requests, before and after the enrollment is replaced |
| `MfaInterleaving.SuccessesAreTheUsedFactors` | go/apiserver/backoffice_auth_mfa.go:126-181 | a factor is used exactly if some request succeeded with it |
| `MfaInterleaving.LedgerNeverFalls` | go/apiserver/auth_mfa.go:468-515 | the stored step of an enrollment never falls, regeneration included |
| `MfaInterleaving.CodesPlusSuccesses` | go/apiserver/auth_mfa.go:499-515 | codes left plus requests that succeeded with one of the list is codes issued |
| `Conversion.QuantizeIsNearest` | go/internal/currency/service.go:484-486 | rounding gives the nearest cent, away from zero on a tie |
| `Conversion.QuantizeKeepsOrder` | go/internal/currency/service.go:484-486 | rounding is monotone, odd, and leaves whole cents alone |
| `Conversion.ConversionMeetsPriceRule` | go/internal/currency/service.go:135-259 | the converted row satisfies the price rule of the new currency, third-currency originals are untouched, acquisition is filled exactly on a first overwrite |
| `Conversion.CurrentPriceIsScaled` | go/internal/currency/service.go:135-259 | in every case the current price is scaled to within half a cent |
| `Conversion.OriginalPriceIsScaled` | go/internal/currency/service.go:135-259 | an original price in the old currency is scaled to within half a cent |
| `Conversion.ConvertedPriceIsScaled` | go/internal/currency/service.go:135-259 | for an original in a third currency the converted amount is scaled to within half a cent |
| `Conversion.OtherAmountsAreKept` | go/internal/currency/service.go:135-259 | what is not scaled is kept, or zero where the price rule says so, case by case |
| `Preview.BuildPreviewBody` | go/apiserver/currency_migrations.go:651-706 | the accumulator loop computes the totals, fills, diffs and hash of the whole listing |
| `Preview.SumCurrentPrices` | go/apiserver/currency_migrations.go:711-720 | the start's own sum is the same sum |
| `Preview.SortIsStable` | go/apiserver/currency_migrations.go:687-694 | the order is by absolute change descending, a permutation, with ties in listing order |
| `Preview.StableSortIsUnique` | go/apiserver/currency_migrations.go:687-694 | any list that is so ordered and keeps the ties is that list, whatever algorithm produced it |
| `Preview.PreviewShowsTheLargest` | go/apiserver/currency_migrations.go:687-701 | at most 100 shown, shown and dropped together are all diffs, and no dropped one changes more than a shown one |
| `Preview.PreviewFigures` | go/apiserver/currency_migrations.go:651-706 | count, totals before and after, first overwrites and hash are those of the whole listing, nil slots skipped; the shown diffs are diffs of listed commodities, largest change first |
| `Preview.SumIgnoresOrder` | go/apiserver/currency_migrations.go:711-720 | the sum does not depend on the listing order |
| `Preview.UntouchedGroupMatches` | go/apiserver/currency_migrations.go:566-586 | the preview's hash equals the one start recomputes on any reordering |
| `Preview.RedistributionMatches` | go/registry/postgres/currency_migration.go:656-663 | moving money between commodities leaves the hashed sum unchanged |
| `Migrations.HintIsLeast` | go/apiserver/currency_migrations.go:636-645 | the hint is in 1..86400 and the least whole number of seconds reaching the next UTC midnight |
| `Migrations.HintLiftsTheCap` | go/apiserver/currency_migrations.go:592-629 | waiting the hint lifts the cap refusal, one second less does not |
| `Migrations.ValidateAttributes` | go/apiserver/currency_migrations.go:521-543 | currency, from-currency, same-currency and rate guards in order |
| `Migrations.PreviewMigration` | go/apiserver/currency_migrations.go:165-249 | the same guards, then a body and a ten-minute token bound to it |
| `Migrations.PreviewsExactly` | go/apiserver/currency_migrations.go:165-249 | a preview is given exactly for terms that pass the guards, and its token signs the group, those terms, the hash and ten minutes |
| `Migrations.CheckToken` | go/apiserver/currency_migrations.go:547-586 | signature, expiry, bindings and live state, in that order |
| `Migrations.GroupHasInFlightRestore` | go/apiserver/currency_migrations.go:741-755 | true exactly if some non-nil restore is pending or running |
| `Migrations.MigrationRegistry.InFlightForGroup` | go/registry/memory/currency_migration.go:190-206 | finds a pending or running row of the group exactly if there is one |
| `Migrations.MigrationRegistry.CompletedTodayForGroup` | go/registry/memory/currency_migration.go:208-233 | counts the group's completions of this UTC day |
| `Migrations.MigrationRegistry.Create` | go/registry/memory/currency_migration.go:130-163 | inserts exactly if nothing of the group is in flight |
| `Migrations.MigrationRegistry.CheckInFlightAndCap` | go/apiserver/currency_migrations.go:592-629 | in-flight, restore and cap checks in order, with the retry hint |
| `Migrations.MigrationRegistry.Start` | go/apiserver/currency_migrations.go:281-364 | all checks in order, then the pending row and the group lock |
| `Migrations.BooksInPlainWords` | go/registry/memory/currency_migration.go:190-233 | in flight means some pending or running row of the group; the day's count is the number of rows completed since UTC midnight |
| `Migrations.StartAnswersExactly` | go/apiserver/currency_migrations.go:281-364 | a start succeeds exactly if the terms pass, the token is signed, unexpired and bound to this group and these terms, size and total are unchanged, nothing is in flight or restoring and fewer than two completed today; it stores exactly those terms; each refusal stands for its own guard, and changes nothing |
| `Migrations.PreviewedMigrationStarts` | go/apiserver/currency_migrations.go:281-364 | exactly when a start with a preview's token succeeds, whatever group and terms it names: they are the preview's own, in time, same currency, count and total, nothing in flight or restoring, cap not reached |
| `Migrations.UntouchedGroupIsNotRefused` | go/apiserver/currency_migrations.go:566-586 | an untouched group is never refused for a changed state |
| `Migrations.StartedBlocksTheNext` | go/apiserver/currency_migrations.go:323-362 | a started migration is the group's only one in flight, is in the lock column, and blocks the next start |
| `Migrations.StartIsCheckThenInsert` | go/apiserver/currency_migrations.go:281-345 | a start handled at once is its checks and its insert with nothing in between |
| `Migrations.AtMostOneInFlight` | go/registry/memory/currency_migration.go:130-163 | from empty books, under any interleaving of checks and inserts, at most one migration per group is in flight |
| `Migrations.InsertKeepsCapExactly` | go/registry/memory/currency_migration.go:130-163 | one insert keeps the cap exactly if it is another group's, loses to one in flight, or the cap is not reached |
| `Migrations.CapHoldsExactly` | go/apiserver/currency_migrations.go:592-629 | over any history the cap holds at every point exactly if every interleaved insert meets that guard |
| `Migrations.DailyCapHolds` | go/apiserver/currency_migrations.go:592-629 | from empty books, with starts handled at once and any worker, completions of any day, and today's plus the one in flight, never exceed two |
| `Migrations.InterleavedStartsBreakTheCap` | go/apiserver/currency_migrations.go:281-345 | three starts that pass their checks together complete three migrations in one day from empty books |
| `OpenLoans.ListOpenLoanCommodityIds` | go/apiserver/commodities.go:203-234 | terminates, and returns the first-seen commodity ids of the loans read up to the reported total |
| `OpenLoans.StopsOnce` | go/apiserver/commodities.go:222-231 | where the loop stops is determined, and never short of the reported total |
| `OpenLoans.ExactlyTheOpenLoans` | go/apiserver/commodities.go:203-234 | on a registry that reports all its open loans: exactly the commodities with an open loan, once each, in first-seen order |
| `Origins.ParseAllowedOrigins` | go/apiserver/cors_config.go:74-102 | the first bad part rejects all; otherwise the trimmed non-empty parts without repetitions |
| `Origins.TrimDropsOnlyOuterSpaces` | go/apiserver/cors_config.go:74-102 | trimming removes spaces from both ends, all of them and nothing else |
| `Origins.FoldsToNullExactly` | go/apiserver/cors_config.go:74-102 | the case-folded comparison is that of the lower-cased string with "null" |
| `Origins.AcceptedExactly` | go/apiserver/cors_config.go:74-102 | a list is accepted exactly if every non-empty trimmed part is good, and then holds exactly those parts |
| `Origins.OneBadPartRejectsAll` | go/apiserver/cors_config.go:74-102 | accepted exactly if every candidate is safe and well formed; the list is duplicate-free and in first-seen order |
| `Origins.SplitOfJoin` | go/apiserver/cors_config.go:80-80 | splitting undoes joining for parts without commas |
| `Origins.ParsingIsIdempotent` | go/apiserver/cors_config.go:74-102 | joining the result and parsing again gives the same list |
| `Deduplication.FirstSeenInOrder` | go/apiserver/commodities.go:214-221 | the seen-map loop keeps each element once, in order of first occurrence |

## Left out

- SessionSafety.OneLiveCredentialPerLogin: handlers are atomic here; two concurrent refreshes can both load a live row.
- Migrations.DailyCapHolds: starts are atomic here; CapHoldsExactly is the interleaved case, which the program does not guard.
- MfaInterleaving.EveryInterleavingIsAccounted: enabling an enrollment is one step there, since the program writes the whole row back.
- AuthMfa.LoginMfa: nothing is claimed about one challenge being used once; the parser does not ask the blacklist.
- Blacklist, slot-store, revoke and delete calls that fail, and the fail-open branches behind them: they are assumed to succeed.
- Cleaning up of expired blacklist entries, cutoffs and slots: entries are kept and read as expired.
- Tokens without jti, iat or exp: every signing function stamps them.
- HMAC, bcrypt, SHA-256, the TOTP computation, randomness: idealised as unforgeable, injective and fresh.
- Request decoding, JSON rendering, cookie flags and paths, CSRF tokens, audit rows, metrics, e-mail, login events.
- Rate limiters and lockout counters: boolean inputs.
- Last-used and last-login stamps, and the roles and flags copied into claims for display.
- OAuth callback, password reset, account deletion, group membership, session listing.
- The nested-impersonation guard in the start handler: the back-office gate before it already refuses such tokens, which PlanesStaySeparate shows.
- The operator enrollment command: an outside step that replaces or removes an operator's second factor.
- Converting a whole group in the worker, and the write lock on commodities while a migration is in flight.
- Single use of a preview token: the program does not promise it.
- Parsing of URLs behind an origin: a function parameter.
- The ordering of loans and commodities in the registries: any listing order is allowed.
