# Refferq affiliate platform: a verified model of the money and attribution core

Refferq is an affiliate platform. Affiliates sign up and share referral codes. The platform records conversions and credits commissions. Administrators maintain the commission rules, batch-edit affiliates and pay out approved commissions. This project models in Dafny the parts of the platform that hold that logic, and proves their properties:

- **Conversion webhook.** It attributes a conversion event to an affiliate by referral code. It picks the first default commission rule and computes the commission in integer cents. It then writes the conversion, the commission, the balance credit and an audit entry.
- **Local table store.** `DatabaseService` of the browser build keeps one table per entity. It offers:
  - create, which appends a record with a fresh id and timestamps;
  - find-first lookups;
  - update-by-id, which merges a patch or returns null;
  - pending filters;
  - per-affiliate statistics;
  - one-time sample seeding.
- **Admin payouts.** GET groups the approved, unpaid commissions by affiliate. POST runs once per requested affiliate: it creates one payout, marks the commissions paid and credits the balance.
- **Admin settings.** Commission rules can be created, updated and deleted. The handler maintains "at most one default rule".
- **OTP service.** This is a per-address state machine over one-time codes:
  - a 60 s rate limit;
  - retirement of older codes;
  - a 10-minute lifetime;
  - single use;
  - an attempts cap;
  - cleanup.
- **Notification list.** It prepends new entries and keeps at most 100. It marks one entry or all entries as read, and counts unread entries.
- **Test e-mail.** `{{key}}` placeholders in a template are substituted from a fixed map. One e-mail log is written.
- **Batch affiliate actions.** The actions are changeStatus, changeGroup and delete.

The database tables are sequences of records held in fields of a class: `Prisma.Db` for the Prisma-backed routes, and `LocalDatabase.DatabaseService` for the localStorage store. A handler is a method that changes exactly the tables it names in `modifies`. Its `ensures` ties the new state to a specification function of the old state, and the lemmas beside it prove what the source promises about that function.

Values that come from outside the code become parameters:
- generated ids, passed as a value or as an id generator `nat -> Id`, where the k-th call gives the k-th id;
- the clock;
- the generated OTP code;
- whether e-mail delivery succeeded.

A JSON Web Token is modelled as `Token`: absent, failing verification, or verified claims.

Modules:
- `Common` holds generic sequence helpers (filter, sum, first index) and their lemmas.
- `Prisma` holds the Prisma row types, the `Db` class and the admin gate the routes share.
- `ConversionWebhook`, `Payouts`, `Settings`, `OtpService`, `Notifications`, `TestSample`/`EmailTest`, `AffiliateBatch` and `LocalDatabase` model one source file each.

## Model

| member | source | states |
|---|---|---|
| Prisma.AdminGate | src/app/api/admin/payouts/route.ts:13-33 | A request passes exactly when the token's user exists and is an ADMIN. Otherwise the status is 401 with no token, 500 when the token fails verification, and 403 for a missing or non-admin user. |
| ConversionWebhook.Attribute | src/app/api/webhook/conversion/route.ts:25-41 | An attribution key alone never resolves an affiliate. It only sets the method to `attribution_key`. With a referral code the method is `referral_code`. The chosen affiliate is the first whose code equals the code exactly, and none is chosen iff no affiliate has that code. |
| ConversionWebhook.ApplicableRule | src/app/api/webhook/conversion/route.ts:76 | The rule is the first rule marked default. There is none iff no rule is default. |
| ConversionWebhook.CommissionRate | src/app/api/webhook/conversion/route.ts:102 | The rate is the rule's value when a rule exists with a non-zero value, and 15 otherwise. |
| ConversionWebhook.CommissionCents | src/app/api/webhook/conversion/route.ts:103-109 | For a PERCENTAGE rule and a non-zero amount, the commission c satisfies 100·c ≤ amount·rate < 100·c+100, which is the floor. For a FIXED rule it is the rate. In every other case, including no rule, it is 0. |
| ConversionWebhook.PercentageCommissionBounds | src/app/api/webhook/conversion/route.ts:105-106 | For non-negative amounts and rates, a percentage commission is non-negative and never exceeds the exact product. With a rate of at most 100 it never exceeds the amount. |
| ConversionWebhook.Post | src/app/api/webhook/conversion/route.ts:4-155 | The response is 400 iff the event type or customer e-mail is missing. It is "not attributed" iff the event is valid and no affiliate matches; then nothing is written. Otherwise exactly one conversion and one commission are appended, and the commission references the conversion and pays `CommissionCents` at `CommissionRate`. The affiliate's balance grows by exactly the commission, and one `conversion_tracked` audit entry is appended. |
| Payouts.GroupByAffiliate | src/app/api/admin/payouts/route.ts:52-69 | The reducer yields one group per distinct affiliate key. Each group holds exactly that affiliate's commissions in order, is non-empty and totals their cents. Every commission's affiliate has a group. |
| Payouts.AddToGroup | src/app/api/admin/payouts/route.ts:52-68 | One reducer step keeps the accumulator a grouping: a new key opens a group of one, and a known key gets the commission appended and its cents added. |
| Payouts.ExactlyOneGroup | src/app/api/admin/payouts/route.ts:36-69 | Every approved, unpaid commission lies in exactly one group. |
| Payouts.Get | src/app/api/admin/payouts/route.ts:11-83 | A request the admin gate rejects returns its status and no groups. Otherwise the status is 200 and the groups are a grouping of the approved, unpaid commissions. |
| Payouts.MarkPaid | src/app/api/admin/payouts/route.ts:148-155 | The rows whose id is selected get `paidAt := now`. Every other row is unchanged. |
| Payouts.Post | src/app/api/admin/payouts/route.ts:85-188 | The admin gate comes first; a rejected request gets the gate's status, no entries and no change. A missing or empty id list is 400 with no change. Otherwise the tables become those of `Run` over the requested ids. The status is 500 if an affiliate row is missing, and 200 with the processed entries otherwise. |
| Payouts.SelectsUnpaid | src/app/api/admin/payouts/route.ts:123-150 | With unique commission ids, the ids of the fetched rows select exactly that affiliate's approved, unpaid commissions. |
| Payouts.MarkPaidSettles | src/app/api/admin/payouts/route.ts:148-155 | After marking, the affiliate has no approved, unpaid commission left. |
| Payouts.MarkPaidKeepsOthers | src/app/api/admin/payouts/route.ts:148-155 | Marking one affiliate's commissions leaves every other affiliate's unpaid list unchanged. |
| Payouts.MarkPaidCents | src/app/api/admin/payouts/route.ts:134-155 | The unpaid total drops by exactly the affiliate's unpaid sum. |
| Payouts.CreditTotal | src/app/api/admin/payouts/route.ts:158-165 | Crediting one affiliate raises the sum of balances by the credit and keeps the ids. |
| Payouts.StepSettles | src/app/api/admin/payouts/route.ts:121-173 | One iteration on consistent tables never fails and keeps them consistent. It settles that affiliate and leaves every other affiliate's unpaid list alone. |
| Payouts.StepLedger | src/app/api/admin/payouts/route.ts:134-172 | One iteration adds the same amount, the affiliate's unpaid sum, to the payouts, the processed entries and the balances. It removes that amount from the unpaid total. |
| Payouts.RunNeverFails | src/app/api/admin/payouts/route.ts:121-173 | On consistent tables (unique commission ids, every commission's affiliate present) the loop never reaches the 500 path. |
| Payouts.RunLedger | src/app/api/admin/payouts/route.ts:121-173 | Conservation: over the whole loop, cents paid out = cents in the processed entries = balance increase = decrease of the unpaid total. |
| Payouts.RunKeepsSettled | src/app/api/admin/payouts/route.ts:121-173 | An affiliate with nothing unpaid still has nothing unpaid after the loop. |
| Payouts.RunFrame | src/app/api/admin/payouts/route.ts:121-173 | An affiliate that was not requested keeps its unpaid commissions. |
| Payouts.RunSettles | src/app/api/admin/payouts/route.ts:121-173 | Every requested affiliate ends with nothing unpaid. |
| Payouts.RunIdle | src/app/api/admin/payouts/route.ts:131 | When no requested affiliate is owed anything, the loop changes nothing: no payout and no balance change. |
| Payouts.SecondRunPaysNothing | src/app/api/admin/payouts/route.ts:121-173 | Idempotence: re-running the same request, at any later time and with any fresh payout ids, leaves every table unchanged. |
| Payouts.RunCount | src/app/api/admin/payouts/route.ts:119-173 | The loop appends as many processed entries and payouts as there are distinct requested affiliates that were owed something. A duplicated id pays once. Earlier entries are kept. |
| Payouts.RunEntries | src/app/api/admin/payouts/route.ts:167-172 | Each new entry belongs to an owed affiliate. Its amount and count are that affiliate's unpaid sum and number of commissions before the run. No affiliate appears twice. |
| Payouts.RunReportsDues | src/app/api/admin/payouts/route.ts:121-172 | Every entry the loop appends names a requested affiliate that was owed something, with that affiliate's unpaid sum and count as they stood before the request. |
| Payouts.RunEntriesDistinct | src/app/api/admin/payouts/route.ts:121-172 | No affiliate gets two entries, even when its id is repeated in the request. |
| Settings.ClearDefaults | src/app/api/admin/settings/route.ts:189-233 | Both clearing writes (lines 189-194 without a kept id, lines 227-233 with one): every default rule except the kept id loses its default flag. Every other row is unchanged. |
| Settings.ClearedDefaultsKeepOnly | src/app/api/admin/settings/route.ts:227-233 | After clearing, a row is default only if it was default and carries the kept id. No id changes. |
| Settings.CreateKeepsOneDefault | src/app/api/admin/settings/route.ts:188-205 | Create appends exactly the new rule: `conditions` defaults to empty, `isDefault` to false and `isActive` to true. "At most one default" is preserved. With `isDefault` set, the new rule is the only default. Otherwise the old rows are untouched. |
| Settings.UpdateKeepsOneDefault | src/app/api/admin/settings/route.ts:214-246 | An update succeeds iff the id exists, and it keeps "at most one default". With `isDefault` set and success, exactly the rule with that id is default. Without it, the other rules are unchanged. |
| Settings.DeleteRemovesExactly | src/app/api/admin/settings/route.ts:248-267 | Delete removes exactly the rule with that id and keeps the rest in order. It fails with 500 iff no rule has the id. |
| Settings.DeleteKeepsOneDefault | src/app/api/admin/settings/route.ts:259-261 | Deleting keeps "at most one default". |
| Settings.Post | src/app/api/admin/settings/route.ts:150-280 | The admin gate comes first. `create` without a name or type, or with no value, is 400. `update` or `delete` without an id is 400. Any other action is 400. A missing `ruleData` raises and gives 500. Otherwise the table becomes the result of create, update or delete, and "at most one default" is preserved. |
| OtpService.Retire | src/lib/otp.ts:45-53 | Every code of the address becomes used. The codes of other addresses are unchanged. |
| OtpService.SendOtp | src/lib/otp.ts:13-96 | The address is lower-cased (ASCII letters only; see Left out). An unknown user gives "no account" and no change. A code for the address created within the last 60000 ms gives "rate limited" and no change. Otherwise the older codes are retired and one fresh unused code is appended. The result is success iff delivery also succeeded. |
| OtpService.IssueLeavesOneOutstanding | src/lib/otp.ts:45-66 | After issuing, the new code is the only unused code of the address, and it expires at now + 600000. Other addresses' rows are unchanged. |
| OtpService.IssueKeepsOneOutstanding | src/lib/otp.ts:45-66 | Issuing preserves "at most one unused code per address". |
| OtpService.RateLimitWindow | src/lib/otp.ts:28-42 | A code of the address created at or after now − 60000 triggers the rate limit. When every code of the address is older, the rate limit is not triggered. |
| OtpService.Verdict | src/lib/otp.ts:106-176 | The result is "verified" iff the first unused, unexpired code matching address and code has fewer than 3 attempts and the user exists. It is "invalid" iff no such code exists. |
| OtpService.Bump | src/lib/otp.ts:117-130 | Corrected attempt count: every unused code of the address gets one more attempt. Nothing else changes. |
| OtpService.VerifyOtp | src/lib/otp.ts:99-185 | The answer is `Verdict` on the lower-cased address. It succeeds iff verified, and then returns the user. The table becomes `AfterVerifyAsWritten`: the match is marked used, or, when nothing matches, the address's unused codes that carry the submitted code get one more attempt. |
| OtpService.VerifyKeepsOneOutstanding | src/lib/otp.ts:117-155 | Verification preserves "at most one unused code per address", both for the transition the handler performs and under the corrected count. |
| OtpService.SingleUse | src/lib/otp.ts:151-155 | A code that verified is invalid when the same code is tried again, at any later time, both for the transition the handler performs and under the corrected count. |
| OtpService.ExhaustedNeverVerifies | src/lib/otp.ts:139-149 | An outstanding code with 3 or more attempts never verifies. |
| OtpService.WrongGuessCounts | src/lib/otp.ts:117-130 | Under the corrected count, a wrong guess raises the outstanding code's attempts by one. |
| OtpService.ThreeStrikes | src/lib/otp.ts:117-149 | Under the corrected count, after three wrong guesses the right code no longer verifies. |
| OtpService.AsWrittenWrongGuessesNeverCount | src/lib/otp.ts:117-130 | As written, three wrong guesses leave the table unchanged, and the right code still verifies. |
| OtpService.WrongGuessIgnoredAsWritten | src/lib/otp.ts:117-130 | As written, for every table with one outstanding code per address, a guess that differs from the address's outstanding code leaves that code exactly as it was. |
| OtpService.WrongGuessesNeverCountAsWritten | src/lib/otp.ts:117-149 | As written, after any number of wrong guesses the outstanding code is unchanged, its attempts included, and the table still has one outstanding code per address. |
| OtpService.CleanupExpiredOtps | src/lib/otp.ts:188-210 | The table keeps exactly the rows that survive cleanup, in order. |
| OtpService.CleanupRemovesExactly | src/lib/otp.ts:190-206 | A row survives iff it is unexpired and not (used and created more than 24 h ago). A live code always survives. |
| OtpService.CleanupKeepsOneOutstanding | src/lib/otp.ts:190-206 | Cleanup preserves "at most one unused code per address". |
| Notifications.NotificationsForUser | src/lib/notifications.ts:53-56 | An entry is in the result iff it is in the list and belongs to the user. The order is the stored order: the head is kept iff it is the user's, followed by the result for the rest. |
| Notifications.UnreadCount | src/lib/notifications.ts:58-61 | The unread count is at most the number of the user's entries. |
| Notifications.UnreadCountIsDirect | src/lib/notifications.ts:58-61 | The unread count equals the number of the user's unread entries in the whole list. |
| Notifications.Pushed | src/lib/notifications.ts:41-47 | The new entry is at index 0, followed by the old entries in order. The length is at most 100. |
| Notifications.PushedForUsers | src/lib/notifications.ts:41-61 | Below capacity, pushing adds the entry at the front of its user's list and raises that user's unread count by one. Other users' lists are unchanged. |
| Notifications.PushedAtCapacity | src/lib/notifications.ts:44-47 | At capacity the oldest entry is dropped. |
| Notifications.MarkedRead | src/lib/notifications.ts:63-70 | Only the first entry with the id becomes read. An unknown id changes nothing. |
| Notifications.MarkedReadIdempotent | src/lib/notifications.ts:63-70 | Marking the same id twice equals marking it once. |
| Notifications.AllRead | src/lib/notifications.ts:72-80 | Every entry of the user becomes read. The other entries are unchanged. |
| Notifications.AllReadClears | src/lib/notifications.ts:72-80 | Afterwards the user's unread count is 0, and other users' lists are unchanged. |
| Notifications.PushedAllSnoc | src/lib/notifications.ts:84-92 | Pushing a sequence and then one more entry equals pushing the longer sequence. |
| Notifications.PushedAllBelowCapacity | src/lib/notifications.ts:84-92 | Below capacity, pushing a sequence puts it reversed in front of the old list. |
| Notifications.PushedAllCapped | src/lib/notifications.ts:41-47 | At any fill level, pushing a sequence puts it reversed in front of the old list, cut to the 100-entry cap, so the oldest entries are dropped. |
| Notifications.ReferralNoticesAddressed | src/lib/notifications.ts:83-93 | For any stored list and at most 100 admins, there is one unread `referral_submitted` entry per admin id, addressed to that admin, newest first. Behind them come the newest old entries that fit under the cap, all of them while the list stays below it. |
| Notifications.NotificationService.constructor | src/lib/notifications.ts:20-27 | A service over empty storage holds no entries. |
| Notifications.NotificationService.CreateNotification | src/lib/notifications.ts:33-51 | Returns the unread entry that was built, and the list becomes `Pushed` of it. |
| Notifications.NotificationService.MarkAsRead | src/lib/notifications.ts:63-70 | The list becomes `MarkedRead`. |
| Notifications.NotificationService.MarkAllAsRead | src/lib/notifications.ts:72-80 | The list becomes `AllRead`. The loop invariant tracks the processed prefix. |
| Notifications.NotificationService.NotifyReferralSubmitted | src/lib/notifications.ts:83-93 | The list becomes the result of pushing one referral notice per admin id, in order. |
| TestSample.TestKeysAreKeyWords | src/app/api/admin/emails/test/route.ts:78-91 | Every key of the test map is a non-empty word of lower-case letters and underscores. |
| TestSample.TestVariablesInert | src/app/api/admin/emails/test/route.ts:78-91 | No test value contains a brace, and each contains a character no placeholder can contain. The admin's address needs the same. |
| EmailTest.ReplaceAllAbsent | src/app/api/admin/emails/test/route.ts:95-97 | A text without the pattern is left unchanged by the global replace. |
| EmailTest.SubstituteAllAbsent | src/app/api/admin/emails/test/route.ts:93-98 | A text with no placeholder of any mapped key is left unchanged, including unknown placeholders. |
| EmailTest.ReplaceLeavesNone | src/app/api/admin/emails/test/route.ts:95-97 | After replacing a placeholder by a brace-free value, the placeholder is gone. A placeholder that was absent cannot be created. |
| EmailTest.SubstituteAllClears | src/app/api/admin/emails/test/route.ts:93-98 | After the loop, no placeholder of any mapped key remains, whatever the template. |
| EmailTest.ValueCanCompletePlaceholder | src/app/api/admin/emails/test/route.ts:95-97 | One replacement can create a placeholder. Replacing `{{c}}` by `b` in `{{a{{c}}}}` leaves `{{ab}}`. This is why values must contain a character no key has. |
| EmailTest.ApplyTestVariables | src/app/api/admin/emails/test/route.ts:75-98 | The loop's subject and body are the substitution of the whole map, in order, applied to each. |
| EmailTest.Post | src/app/api/admin/emails/test/route.ts:29-139 | 401 unless the token's claims say ADMIN. 400 without a template id. 404 for an unknown template or user. Otherwise 200, with exactly one appended log carrying the substituted subject and body, status SENT and the test flag. No log on any other status. |
| EmailTest.LoggedEmailHasNoPlaceholder | src/app/api/admin/emails/test/route.ts:78-115 | The logged subject and body contain no `{{key}}` for any mapped key. |
| AffiliateBatch.OwnersMember | src/app/api/admin/affiliates/batch/route.ts:74-78 | A user id is among the owners iff that user owns a listed affiliate. |
| AffiliateBatch.StatusChangesOwnersOnly | src/app/api/admin/affiliates/batch/route.ts:81-84 | A user row gets the new status iff its user owns a listed affiliate. Otherwise it is unchanged. |
| AffiliateBatch.StatusCount | src/app/api/admin/affiliates/batch/route.ts:81-86 | The reported count is the number of user rows of listed affiliates' owners, at most the table size. |
| AffiliateBatch.Grouped | src/app/api/admin/affiliates/batch/route.ts:119-131 | Only the payout details change. `group` is set, and every other key is kept with its value. |
| AffiliateBatch.RegroupKeepsIds | src/app/api/admin/affiliates/batch/route.ts:118-133 | The loop never changes the id column. |
| AffiliateBatch.RegroupSnoc | src/app/api/admin/affiliates/batch/route.ts:118-133 | One more id in the request is one more single-row update after the others. |
| AffiliateBatch.LookupMisses | src/app/api/admin/affiliates/batch/route.ts:119-120 | The update by id finds no row iff no row carries the id. |
| AffiliateBatch.RegroupDirect | src/app/api/admin/affiliates/batch/route.ts:118-133 | With unique affiliate ids, every listed affiliate is grouped and every other row is unchanged. The result is independent of the order of the request and of repeated ids. |
| AffiliateBatch.ChangeGroup | src/app/api/admin/affiliates/batch/route.ts:118-133 | With every id known, the loop succeeds and the table is the regrouping by all ids. At the first unknown id it fails, and the table keeps the updates made before it. |
| AffiliateBatch.OwnerEmails | src/app/api/admin/affiliates/batch/route.ts:157-180 | The deleted e-mails are the owners' addresses in table order. They are undefined, which here is an error, iff some affiliate has no user row. |
| AffiliateBatch.DeleteRemovesListed | src/app/api/admin/affiliates/batch/route.ts:157-169 | An affiliate survives iff its user owns no listed affiliate, so no listed affiliate survives. The deleted and remaining users add up to the old table. |
| AffiliateBatch.Post | src/app/api/admin/affiliates/batch/route.ts:1-205 | The admin gate comes first; a rejected request gets the gate's status, a count of 0 and no change. Missing ids or a missing action give 400. changeStatus needs one of PENDING, ACTIVE, INACTIVE, SUSPENDED; it sets the owners' status, reports the rows selected and appends one audit entry. changeGroup needs a group; it regroups each listed affiliate, counts the ids, and gives 500 at an unknown id. delete removes the owners' users and their affiliates and logs their e-mails. Any other action gives 400, and no statuses other than 200/500 change anything. |
| LocalDatabase.EmptyPatchChangesOnlyTimestamp | src/lib/database.ts:177-307 | Over the four update methods, an empty patch leaves referrals and commissions unchanged. Users and affiliates change only in `updated_at`. |
| LocalDatabase.MergeIdempotent | src/lib/database.ts:177-307 | For each of the four update methods, applying the same update twice equals applying it once. |
| LocalDatabase.UpdateStampsNow | src/lib/database.ts:182-220 | A user or affiliate update sets `updated_at` to now, whatever the patch says. |
| LocalDatabase.SampleCommissionMatchesDefaultRule | src/lib/database.ts:519-594 | The sample commission is 15% of the sample conversion (33750 of 225000), at the default rule's rate. |
| LocalDatabase.SampleHasOneDefault | src/lib/database.ts:518-542 | Exactly one sample rule is default: the first. |
| LocalDatabase.DatabaseService.constructor | src/lib/database.ts:136-139 | A service over empty storage has empty tables. |
| LocalDatabase.DatabaseService.CreateUser | src/lib/database.ts:154-165 | The record is the data with a fresh id and both timestamps set to now, appended at the end of the table. |
| LocalDatabase.DatabaseService.GetUserByEmail | src/lib/database.ts:167-170 | Returns the first user with exactly that e-mail, else null. |
| LocalDatabase.DatabaseService.GetUserById | src/lib/database.ts:172-175 | Returns the first user with that id (no earlier row has it), else null. |
| LocalDatabase.DatabaseService.UpdateUser | src/lib/database.ts:177-185 | An unknown id returns null and changes nothing. Otherwise only the first row with the id becomes the merge with `updated_at` = now, and that row is returned. |
| LocalDatabase.DatabaseService.CreateAffiliate | src/lib/database.ts:188-199 | Appends the data with a fresh id and both timestamps. |
| LocalDatabase.DatabaseService.GetAffiliateByUserId | src/lib/database.ts:201-204 | Returns the first affiliate of that user (no earlier row has that user id), else null. |
| LocalDatabase.DatabaseService.GetAffiliateByReferralCode | src/lib/database.ts:206-209 | Returns the first affiliate whose code equals the argument exactly, else null. |
| LocalDatabase.DatabaseService.UpdateAffiliate | src/lib/database.ts:215-223 | As UpdateUser, for affiliates. |
| LocalDatabase.DatabaseService.CreateReferral | src/lib/database.ts:226-236 | Appends the data with a fresh id and `submitted_at` = now. |
| LocalDatabase.DatabaseService.UpdateReferral | src/lib/database.ts:248-256 | An unknown id returns null and changes nothing. Otherwise only that row becomes the merge, with no timestamp refreshed. |
| LocalDatabase.DatabaseService.CreateConversion | src/lib/database.ts:259-269 | Appends the data with a fresh id and `created_at` = now. |
| LocalDatabase.DatabaseService.CreateCommission | src/lib/database.ts:277-287 | Appends the data with a fresh id and `created_at` = now. |
| LocalDatabase.DatabaseService.UpdateCommission | src/lib/database.ts:299-307 | As UpdateReferral, for commissions. |
| LocalDatabase.DatabaseService.CreatePayout | src/lib/database.ts:310-320 | Appends the data with a fresh id and `created_at` = now. |
| LocalDatabase.DatabaseService.CreateCommissionRule | src/lib/database.ts:328-338 | Appends the data with a fresh id and `created_at` = now. |
| LocalDatabase.DatabaseService.GetDefaultCommissionRule | src/lib/database.ts:344-347 | Returns the first rule with `is_default`, else null. |
| LocalDatabase.DatabaseService.GetAllAffiliates | src/lib/database.ts:211-213 | Returns the whole affiliate table: the same length and the same record at every index. |
| LocalDatabase.DatabaseService.GetReferralsByAffiliate | src/lib/database.ts:238-241 | A referral is returned iff it is stored with that affiliate id. |
| LocalDatabase.DatabaseService.GetPendingReferrals | src/lib/database.ts:243-246 | A referral is returned iff it is stored with status `submitted`. |
| LocalDatabase.DatabaseService.GetConversionsByAffiliate | src/lib/database.ts:271-274 | A conversion is returned iff it is stored with that affiliate id. |
| LocalDatabase.DatabaseService.GetCommissionsByAffiliate | src/lib/database.ts:289-292 | A commission is returned iff it is stored with that affiliate id. |
| LocalDatabase.DatabaseService.GetPendingCommissions | src/lib/database.ts:294-297 | A commission is returned iff it is stored with status `pending`. |
| LocalDatabase.DatabaseService.GetPayoutsByAffiliate | src/lib/database.ts:322-325 | A payout is returned iff it is stored with that affiliate id. |
| LocalDatabase.DatabaseService.GetCommissionRules | src/lib/database.ts:340-342 | Returns the whole rule table: the same length and the same rule at every index. |
| LocalDatabase.DatabaseService.GetClicksByReferralCode | src/lib/database.ts:375-378 | A click is returned iff it is stored with exactly that referral code. |
| LocalDatabase.DatabaseService.CreateAuditLog | src/lib/database.ts:350-360 | Appends the data with a fresh id and `created_at` = now. |
| LocalDatabase.DatabaseService.CreateReferralClick | src/lib/database.ts:363-373 | Appends the data with a fresh id and `created_at` = now. |
| LocalDatabase.DatabaseService.InitializeSampleData | src/lib/database.ts:465-605 | With any user stored, nothing changes. Otherwise the admin, two affiliate users, their affiliates, the three rules, two referrals, a conversion, its commission and a click are appended. |
| LocalDatabase.DatabaseService.SeedAccounts | src/lib/database.ts:470-516 | Appends the three sample users and the two sample affiliates. |
| LocalDatabase.DatabaseService.SeedRules | src/lib/database.ts:518-542 | Appends the three sample rules. |
| LocalDatabase.DatabaseService.SeedReferrals | src/lib/database.ts:544-570 | Appends the two sample referrals. |
| LocalDatabase.DatabaseService.SeedActivity | src/lib/database.ts:572-605 | Appends the sample conversion, commission and click. |
| LocalDatabase.DatabaseService.GetAffiliateStats | src/lib/database.ts:381-426 | An unknown user gives all zeros. Otherwise the counts and sums are taken over that affiliate's clicks, conversions and commissions. |
| LocalDatabase.PendingListsExact | src/lib/database.ts:243-297 | A referral is pending iff it is stored with status `submitted`. A commission is pending iff it is stored with status `pending`. |
| LocalDatabase.PendingListsKeepOrder | src/lib/database.ts:243-297 | The pending lists keep table order: an appended record joins the end of its list exactly when it is pending. |
| LocalDatabase.StatsCounts | src/lib/database.ts:409-422 | pending + approved ≤ total commissions ≤ table size. Clicks and conversions are bounded by their tables. |
| LocalDatabase.StatsEarnings | src/lib/database.ts:413-424 | With no negative commission, 0 ≤ pending earnings ≤ total earnings. |
| LocalDatabase.UpdatedUserIsFound | src/lib/database.ts:172-185 | After an update whose patch keeps the id, lookup by id returns exactly the record the update returned. |

## Left out

- The settings route's GET and PUT (src/app/api/admin/settings/route.ts:11-148) are not modelled. They read and write program settings without any logic of their own.
- The other notification helpers (`notifyReferralApproved`, `notifyReferralRejected`, `notifyCommissionApproved`, `notifyPayoutProcessed`, `notifyAffiliateRegistered`) are not modelled. Each is `createNotification` with a fixed text, and the money amounts use floating-point `toFixed` formatting. The `metadata` field of a notification is not modelled.
- E-mail delivery is a parameter. This covers the OTP e-mail through the mail provider and its HTML template, and the mail-service library. Only its success flag is kept.
- OTP generation (`generateOTP`), id generation and the clock are parameters: the OTP code, `Id` values and `now`. Timestamps are integers (milliseconds for the Prisma tables, an ISO string for the local store).
- JWT signing and verification are not modelled. A token is absent, failing verification, or verified claims.
- Two things the routes rely on are assumed, because the code that fixes them is not part of this model. First, the `PENDING` status of a new conversion and commission is taken from the database schema's defaults, since the webhook sets no status. Second, the `db` wrapper of `src/lib/prisma` is taken to behave as follows: `getAffiliateByReferralCode` returns the first exact match, and `getCommissionRules` returns the whole table in stored order.
- Prisma and localStorage are modelled as in-memory tables. Loading an unparsable localStorage table is modelled as loading an empty one.
- Concurrency is not modelled. Webhook deliveries and payout requests run one at a time, so the read-then-write balance update cannot race.
- Approving or rejecting a referral is not modelled. Its handler is not part of this model.
- The special `$` patterns of a JavaScript replacement string (`$&`, `$1`, …) are not interpreted by `EmailTest.ReplaceAll`. The only test value with a `$` is `$250.00`, and the placeholder pattern has no groups, so its `$2` is inserted literally.
- The `conversionRate` fields of `getAffiliateStats` and `getPlatformStats` are floats and are left out. The integer fields are modelled.
- A patch key present with the value `undefined` is not distinguished from an absent key. The model has no `undefined` value.
- The batch delete's cascade is modelled only from users to their affiliates. The other tables that reference a user are not part of the model.
- Every create takes a single `now`, so `created_at` equals `updated_at` even though the source reads the clock twice.
- The webhook's `event_metadata` spread is not modelled as a JSON merge. The event's own map is kept beside the four keys it adds (`customerEmail`, `attributionMethod`, `attributionKey`, `referralCode`), which are separate fields. So an event map that already holds one of those keys is not shown as overwritten.
- Payouts.Step: three simplifications of the POST loop. The payout's `userId` and `commissionId` are taken from the first unpaid commission in table order, but `findMany` has no `orderBy`, so the row the database returns first is unspecified. One `now` is used as every iteration's `paidAt`, where the source reads the clock once per iteration. `Payouts.Get` drops each group's affiliate name, e-mail and referral code, which the GET handler only copies from the included relation.
- LocalDatabase.DatabaseService.GetPlatformStats: has no contract; it is the integer counts and sum of lines 428-462, with the rate left out as a float.
- LocalDatabase.StatsEarnings: states pending ≤ total only when no commission amount is negative. The source does not exclude negative amounts, and with them the bound fails.
- ConversionWebhook.Post: requires unique affiliate ids in the table, as the Prisma primary key guarantees. The balance is written back by id.
- OtpService.SendOtp: lower-cases the address for the ASCII letters A-Z only. `toLowerCase` also folds cased letters outside ASCII (`Ä` to `ä`), so for addresses holding such letters the stored and looked-up address differ from the source's.
- OtpService.VerifyOtp: lower-cases the address for ASCII only, as `OtpService.SendOtp` does, with the same consequence for lookups of non-ASCII addresses.
- OtpService.VerifyOtp: requires unique OTP ids, as the primary key guarantees. The found code is marked used by id.
- EmailTest.LoggedEmailHasNoPlaceholder: needs the admin's address to contain no brace and some character no key contains. Any address with `@` and no braces qualifies. Without that, `EmailTest.ValueCanCompletePlaceholder` shows how a value can complete a placeholder.

## Findings

| source | as written | input that shows it | evidently intended | confidence | as-written member | corrected member |
|---|---|---|---|---|---|---|
| src/lib/otp.ts:117-130 | After a failed match, the attempts counter is raised only on unused codes of the address whose code equals the (wrong) guess. The outstanding code itself is never bumped, so the cap of 3 attempts never takes effect. | One unused code `123456` for `a@b.io`. Guesses `000000`, `000001`, `000002` change nothing. `123456` then still verifies. | Every wrong guess raises the attempts of the address's outstanding code, so three wrong guesses lock it. | not executed | OtpService.AsWrittenWrongGuessesNeverCount | OtpService.ThreeStrikes |
