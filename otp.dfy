/** `OTPService` of `src/lib/otp.ts`: one-time login codes as transitions over the
    OTP table. A code is issued at most once a minute per address, issuing one
    retires every earlier code of the address, a code lives ten minutes, is used
    at most once, and is refused after three failed attempts. The generated code,
    the clock and the outcome of the e-mail delivery are parameters. */
module OtpService {
  import opened Common
  import opened Prisma

  /** Lines 28-35: no new code within a minute of the last one. */
  const RateLimitMillis := 60000
  /** Line 57: a code expires ten minutes after it is issued. */
  const LifetimeMillis := 10 * 60 * 1000
  /** Line 139: the number of failed attempts after which a code is refused. */
  const MaxAttempts := 3
  /** Line 201: used codes are kept for a day. */
  const RetentionMillis := 24 * 60 * 60 * 1000

  /** No two codes of one address are outstanding (stored and unused) at once. */
  predicate OneOutstanding(otps: seq<Otp>) {
    forall i, j ::
      (0 <= i < |otps| && 0 <= j < |otps| && !otps[i].isUsed && !otps[j].isUsed && otps[i].email == otps[j].email)
      ==> i == j
  }

  predicate UniqueOtpIds(otps: seq<Otp>) {
    forall i, j :: 0 <= i < |otps| && 0 <= j < |otps| && otps[i].id == otps[j].id ==> i == j
  }

  function OtpWithId(id: Id): Otp -> bool {
    (o: Otp) => o.id == id
  }

  // ---------------------------------------------------------------- sendOTP

  /** Lines 28-35: a code for the address created at or after `now - 60000`. */
  function RecentFor(email: string, now: Millis): Otp -> bool {
    (o: Otp) => o.email == email && o.createdAt >= now - RateLimitMillis
  }

  /** Lines 45-53: `updateMany({ where: { email, isUsed: false }, data: { isUsed: true } })`. */
  function Retire(otps: seq<Otp>, email: string): (r: seq<Otp>)
    ensures |r| == |otps|
    ensures forall i :: 0 <= i < |otps| ==>
              r[i] == if otps[i].email == email then otps[i].(isUsed := true) else otps[i]
  {
    seq(|otps|, i requires 0 <= i < |otps| =>
      if otps[i].email == email && !otps[i].isUsed then otps[i].(isUsed := true) else otps[i])
  }

  /** Lines 56-66: the stored row, under the lower-cased address, with no attempts yet. */
  function Issued(id: Id, email: string, code: string, now: Millis): Otp {
    Otp(id, email, code, now + LifetimeMillis, now, false, 0)
  }

  datatype SendResult = NoAccount | RateLimited | DeliveryFailed | Sent

  function SendMessage(r: SendResult): string {
    match r
    case NoAccount => "No account found with this email address"
    case RateLimited => "Please wait 1 minute before requesting another OTP"
    case DeliveryFailed => "Failed to send OTP email. Please try again."
    case Sent => "OTP sent successfully to your email"
  }

  /** Lines 13-96. `delivered` is what `resend.emails.send` reports; a failed delivery
      is reported after the code has been stored. */
  method SendOtp(db: Db, email: string, now: Millis, id: Id, code: string, delivered: bool)
    returns (result: SendResult, success: bool, message: string)
    modifies db`otps
    ensures success <==> result == Sent
    ensures message == SendMessage(result)
    ensures FirstIndex(db.users, UserWithEmail(ToLower(email))).None? ==>
              result == NoAccount && db.otps == old(db.otps)
    ensures FirstIndex(db.users, UserWithEmail(ToLower(email))).Some? &&
            FirstIndex(old(db.otps), RecentFor(ToLower(email), now)).Some? ==>
              result == RateLimited && db.otps == old(db.otps)
    ensures FirstIndex(db.users, UserWithEmail(ToLower(email))).Some? &&
            FirstIndex(old(db.otps), RecentFor(ToLower(email), now)).None? ==>
              result == (if delivered then Sent else DeliveryFailed) &&
              db.otps == Retire(old(db.otps), ToLower(email)) + [Issued(id, ToLower(email), code, now)]
  {
    var address := ToLower(email);
    var user := FirstIndex(db.users, UserWithEmail(address));
    if user.None? {
      result := NoAccount;
    } else if FirstIndex(db.otps, RecentFor(address, now)).Some? {
      result := RateLimited;
    } else {
      db.otps := Retire(db.otps, address);
      db.otps := db.otps + [Issued(id, address, code, now)];
      result := if delivered then Sent else DeliveryFailed;
    }
    success, message := result == Sent, SendMessage(result);
  }

  /** After a code is stored for an address, it is that address's only outstanding code;
      it sits at the end of the table, expires ten minutes after `now`, and the
      rows of every other address are as they were. */
  lemma IssueLeavesOneOutstanding(otps: seq<Otp>, id: Id, email: string, code: string, now: Millis)
    ensures var r := Retire(otps, email) + [Issued(id, email, code, now)];
            && |r| == |otps| + 1
            && !r[|otps|].isUsed && r[|otps|].email == email
            && r[|otps|].expiresAt == now + 600000
            && (forall i :: 0 <= i < |r| && r[i].email == email && !r[i].isUsed ==> i == |otps|)
            && (forall i :: 0 <= i < |otps| && otps[i].email != email ==> r[i] == otps[i])
  {
  }

  /** Issuing a code keeps "one outstanding code per address" for the whole table. */
  lemma IssueKeepsOneOutstanding(otps: seq<Otp>, id: Id, email: string, code: string, now: Millis)
    requires OneOutstanding(otps)
    ensures OneOutstanding(Retire(otps, email) + [Issued(id, email, code, now)])
  {
    var r := Retire(otps, email) + [Issued(id, email, code, now)];
    forall i, j | 0 <= i < |r| && 0 <= j < |r| && !r[i].isUsed && !r[j].isUsed && r[i].email == r[j].email
      ensures i == j
    {
      if i < |otps| && j < |otps| {
        assert r[i] == otps[i] && r[j] == otps[j];
      }
    }
  }

  /** A request inside the rate-limit window changes nothing; one outside it is let through. */
  lemma RateLimitWindow(otps: seq<Otp>, email: string, now: Millis, k: nat)
    requires k < |otps| && otps[k].email == email
    ensures otps[k].createdAt >= now - 60000 ==> FirstIndex(otps, RecentFor(email, now)).Some?
    ensures (forall i :: 0 <= i < |otps| && otps[i].email == email ==> otps[i].createdAt < now - 60000) ==>
              FirstIndex(otps, RecentFor(email, now)).None?
  {
    if otps[k].createdAt >= now - 60000 {
      assert RecentFor(email, now)(otps[k]);
    }
  }

  // ---------------------------------------------------------------- verifyOTP

  /** Lines 106-115: a stored, unused, unexpired code of the address with that value. */
  function LiveFor(email: string, code: string, now: Millis): Otp -> bool {
    (o: Otp) => o.email == email && o.code == code && !o.isUsed && o.expiresAt > now
  }

  datatype VerifyResult = Invalid | TooManyAttempts | UnknownUser | Verified

  function VerifyMessage(r: VerifyResult): string {
    match r
    case Invalid => "Invalid or expired OTP"
    case TooManyAttempts => "Too many invalid attempts. Please request a new OTP."
    case UnknownUser => "User not found"
    case Verified => "OTP verified successfully"
  }

  /** Lines 106-176: what a verification answers, from the tables it reads. */
  function Verdict(otps: seq<Otp>, users: seq<User>, email: string, code: string, now: Millis): (r: VerifyResult)
    ensures r == Verified <==>
              exists k :: 0 <= k < |otps| && LiveFor(email, code, now)(otps[k]) && otps[k].attempts < MaxAttempts
                          && (forall j :: 0 <= j < k ==> !LiveFor(email, code, now)(otps[j]))
                          && FirstIndex(users, UserWithEmail(email)).Some?
    ensures r == Invalid <==> forall k :: 0 <= k < |otps| ==> !LiveFor(email, code, now)(otps[k])
  {
    match FirstIndex(otps, LiveFor(email, code, now))
    case None => Invalid
    case Some(k) =>
      if otps[k].attempts >= MaxAttempts then TooManyAttempts
      else if FirstIndex(users, UserWithEmail(email)).None? then UnknownUser
      else Verified
  }

  /** Lines 118-130 as written: only unused rows of the address WITH THE SUBMITTED CODE
      get an attempt, so a wrong guess never counts against the real code. */
  function BumpAsWritten(otps: seq<Otp>, email: string, code: string): (r: seq<Otp>)
    ensures |r| == |otps|
    ensures forall i :: 0 <= i < |otps| ==>
              r[i] == if otps[i].email == email && otps[i].code == code && !otps[i].isUsed
                      then otps[i].(attempts := otps[i].attempts + 1) else otps[i]
  {
    seq(|otps|, i requires 0 <= i < |otps| =>
      if otps[i].email == email && otps[i].code == code && !otps[i].isUsed
      then otps[i].(attempts := otps[i].attempts + 1) else otps[i])
  }

  /** The failed attempt as evidently intended ("increment attempts for any existing OTP"):
      every outstanding code of the address gets an attempt. */
  function Bump(otps: seq<Otp>, email: string): (r: seq<Otp>)
    ensures |r| == |otps|
    ensures forall i :: 0 <= i < |otps| ==>
              r[i] == if otps[i].email == email && !otps[i].isUsed
                      then otps[i].(attempts := otps[i].attempts + 1) else otps[i]
  {
    seq(|otps|, i requires 0 <= i < |otps| =>
      if otps[i].email == email && !otps[i].isUsed
      then otps[i].(attempts := otps[i].attempts + 1) else otps[i])
  }

  /** The table after a verification (with the corrected attempt count): a failed lookup
      adds an attempt, a found code is marked used whether or not it is then accepted. */
  function AfterVerify(otps: seq<Otp>, email: string, code: string, now: Millis): seq<Otp> {
    match FirstIndex(otps, LiveFor(email, code, now))
    case None => Bump(otps, email)
    case Some(k) => otps[k := otps[k].(isUsed := true)]
  }

  /** The table after a verification as the handler performs it: the same, with the
      attempt count as written. */
  function AfterVerifyAsWritten(otps: seq<Otp>, email: string, code: string, now: Millis): seq<Otp> {
    match FirstIndex(otps, LiveFor(email, code, now))
    case None => BumpAsWritten(otps, email, code)
    case Some(k) => otps[k := otps[k].(isUsed := true)]
  }

  /** Lines 99-185; `user` is the row returned on success. A failed lookup runs the
      `updateMany` of lines 119-130 as written (filtered on the submitted code); the found
      code is marked used through `update({ where: { id } })`, i.e. on the row with its
      (unique) id. */
  method VerifyOtp(db: Db, email: string, code: string, now: Millis)
    returns (result: VerifyResult, success: bool, user: Option<User>, message: string)
    requires UniqueOtpIds(db.otps)
    modifies db`otps
    ensures result == Verdict(old(db.otps), db.users, ToLower(email), code, now)
    ensures success <==> result == Verified
    ensures message == VerifyMessage(result)
    ensures user.Some? <==> success
    ensures user.Some? ==> user == Find(db.users, UserWithEmail(ToLower(email)))
    ensures db.otps == AfterVerifyAsWritten(old(db.otps), ToLower(email), code, now)
  {
    var address := ToLower(email);
    user := None;
    var found := FirstIndex(db.otps, LiveFor(address, code, now));
    if found.None? {
      db.otps := BumpAsWritten(db.otps, address, code);
      result := Invalid;
    } else {
      var otp := db.otps[found.value];
      var row := FirstIndex(db.otps, OtpWithId(otp.id));
      assert row == found;
      db.otps := db.otps[row.value := db.otps[row.value].(isUsed := true)];
      if otp.attempts >= MaxAttempts {
        result := TooManyAttempts;
      } else {
        user := Find(db.users, UserWithEmail(address));
        result := if user.None? then UnknownUser else Verified;
      }
    }
    success, message := result == Verified, VerifyMessage(result);
  }

  /** Verification never makes a second code outstanding, with the attempt count as
      written and as corrected alike. */
  lemma VerifyKeepsOneOutstanding(otps: seq<Otp>, email: string, code: string, now: Millis)
    requires OneOutstanding(otps)
    ensures OneOutstanding(AfterVerifyAsWritten(otps, email, code, now))
    ensures OneOutstanding(AfterVerify(otps, email, code, now))
  {
    var w := AfterVerifyAsWritten(otps, email, code, now);
    assert forall i :: 0 <= i < |otps| ==> w[i].email == otps[i].email && (!w[i].isUsed ==> !otps[i].isUsed);
    var r := AfterVerify(otps, email, code, now);
    assert forall i :: 0 <= i < |otps| ==> r[i].email == otps[i].email && (!r[i].isUsed ==> !otps[i].isUsed);
  }

  /** Single use: once a code of an address with one outstanding code has been accepted,
      presenting it again (at any time) is answered "invalid". */
  lemma SingleUse(otps: seq<Otp>, users: seq<User>, email: string, code: string, now: Millis, later: Millis)
    requires OneOutstanding(otps)
    requires Verdict(otps, users, email, code, now) == Verified
    ensures Verdict(AfterVerifyAsWritten(otps, email, code, now), users, email, code, later) == Invalid
    ensures Verdict(AfterVerify(otps, email, code, now), users, email, code, later) == Invalid
  {
    var k := FirstIndex(otps, LiveFor(email, code, now)).value;
    var r := AfterVerify(otps, email, code, now);
    assert r == AfterVerifyAsWritten(otps, email, code, now);
    assert forall j :: 0 <= j < |r| && j != k ==> r[j] == otps[j];
  }

  /** A code with three recorded attempts is never accepted. */
  lemma ExhaustedNeverVerifies(otps: seq<Otp>, users: seq<User>, email: string, code: string, now: Millis, k: nat)
    requires OneOutstanding(otps)
    requires k < |otps| && otps[k].email == email && !otps[k].isUsed && otps[k].attempts >= MaxAttempts
    ensures Verdict(otps, users, email, code, now) != Verified
  {
    match FirstIndex(otps, LiveFor(email, code, now))
    case None =>
    case Some(i) =>
      assert !otps[i].isUsed && otps[i].email == email;
  }

  /** The attempt cap, with the corrected count: after three wrong guesses the code that was
      issued is refused, whatever the clock says. */
  lemma ThreeStrikes(otps: seq<Otp>, users: seq<User>, email: string, k: nat,
                     guesses: seq<string>, times: seq<Millis>, later: Millis)
    requires OneOutstanding(otps)
    requires k < |otps| && otps[k].email == email && !otps[k].isUsed
    requires |guesses| == 3 && |times| == 3
    requires forall g :: 0 <= g < 3 ==> guesses[g] != otps[k].code
    ensures var t1 := AfterVerify(otps, email, guesses[0], times[0]);
            var t2 := AfterVerify(t1, email, guesses[1], times[1]);
            var t3 := AfterVerify(t2, email, guesses[2], times[2]);
            Verdict(t3, users, email, otps[k].code, later) != Verified
  {
    var t1 := AfterVerify(otps, email, guesses[0], times[0]);
    WrongGuessCounts(otps, email, guesses[0], times[0], k);
    VerifyKeepsOneOutstanding(otps, email, guesses[0], times[0]);
    var t2 := AfterVerify(t1, email, guesses[1], times[1]);
    WrongGuessCounts(t1, email, guesses[1], times[1], k);
    VerifyKeepsOneOutstanding(t1, email, guesses[1], times[1]);
    var t3 := AfterVerify(t2, email, guesses[2], times[2]);
    WrongGuessCounts(t2, email, guesses[2], times[2], k);
    VerifyKeepsOneOutstanding(t2, email, guesses[2], times[2]);
    ExhaustedNeverVerifies(t3, users, email, otps[k].code, later, k);
  }

  /** A guess that differs from the outstanding code of the address counts as an attempt
      against it and leaves it outstanding with the same code. */
  lemma WrongGuessCounts(otps: seq<Otp>, email: string, guess: string, now: Millis, k: nat)
    requires OneOutstanding(otps)
    requires k < |otps| && otps[k].email == email && !otps[k].isUsed && guess != otps[k].code
    ensures var r := AfterVerify(otps, email, guess, now);
            && |r| == |otps|
            && r[k] == otps[k].(attempts := otps[k].attempts + 1)
  {
    forall j | 0 <= j < |otps|
      ensures !LiveFor(email, guess, now)(otps[j])
    {
      if j != k && otps[j].email == email && !otps[j].isUsed {
        assert false;
      }
    }
  }

  /** The defect of the count as written, for every table: a guess that differs from the
      outstanding code of the address leaves that code exactly as it was. */
  lemma WrongGuessIgnoredAsWritten(otps: seq<Otp>, email: string, guess: string, now: Millis, k: nat)
    requires OneOutstanding(otps)
    requires k < |otps| && otps[k].email == email && !otps[k].isUsed && guess != otps[k].code
    ensures var r := AfterVerifyAsWritten(otps, email, guess, now);
            && |r| == |otps|
            && r[k] == otps[k]
  {
    forall j | 0 <= j < |otps|
      ensures !LiveFor(email, guess, now)(otps[j])
    {
      if j != k && otps[j].email == email && !otps[j].isUsed {
        assert false;
      }
    }
  }

  /** Any run of wrong guesses, as written: the table after each guess in turn. */
  function GuessesAsWritten(otps: seq<Otp>, email: string, guesses: seq<string>, times: seq<Millis>): seq<Otp>
    requires |guesses| == |times|
    decreases |guesses|
  {
    if guesses == [] then otps
    else GuessesAsWritten(AfterVerifyAsWritten(otps, email, guesses[0], times[0]), email, guesses[1..], times[1..])
  }

  /** However many wrong guesses are made, as written the outstanding code keeps its
      attempts, so the cap of three never takes effect against it. */
  lemma {:induction false} WrongGuessesNeverCountAsWritten(otps: seq<Otp>, email: string,
                                                          guesses: seq<string>, times: seq<Millis>, k: nat)
    requires OneOutstanding(otps)
    requires k < |otps| && otps[k].email == email && !otps[k].isUsed
    requires |guesses| == |times|
    requires forall g :: 0 <= g < |guesses| ==> guesses[g] != otps[k].code
    ensures var r := GuessesAsWritten(otps, email, guesses, times);
            |r| == |otps| && r[k] == otps[k] && OneOutstanding(r)
    decreases |guesses|
  {
    if guesses != [] {
      var t := AfterVerifyAsWritten(otps, email, guesses[0], times[0]);
      WrongGuessIgnoredAsWritten(otps, email, guesses[0], times[0], k);
      VerifyKeepsOneOutstanding(otps, email, guesses[0], times[0]);
      assert forall g :: 0 <= g < |guesses[1..]| ==> guesses[1..][g] == guesses[g + 1];
      WrongGuessesNeverCountAsWritten(t, email, guesses[1..], times[1..], k);
    }
  }

  /** The defect of the count as written: a code issued at time 0 survives any number of
      wrong guesses. Here three wrong guesses leave its attempts at 0 and it is then accepted. */
  lemma AsWrittenWrongGuessesNeverCount()
    ensures var otps := [Otp("o1", "a@b.io", "123456", 600000, 0, false, 0)];
            var users := [User("u1", "a@b.io", "A", "AFFILIATE", "ACTIVE")];
            var t1 := AfterVerifyAsWritten(otps, "a@b.io", "000000", 1000);
            var t2 := AfterVerifyAsWritten(t1, "a@b.io", "000001", 2000);
            var t3 := AfterVerifyAsWritten(t2, "a@b.io", "000002", 3000);
            t3 == otps && Verdict(t3, users, "a@b.io", "123456", 4000) == Verified
  {
    var otps := [Otp("o1", "a@b.io", "123456", 600000, 0, false, 0)];
    var users := [User("u1", "a@b.io", "A", "AFFILIATE", "ACTIVE")];
    assert FirstIndex(otps, LiveFor("a@b.io", "000000", 1000)) == None;
    assert BumpAsWritten(otps, "a@b.io", "000000") == otps;
    assert FirstIndex(otps, LiveFor("a@b.io", "000001", 2000)) == None;
    assert BumpAsWritten(otps, "a@b.io", "000001") == otps;
    assert FirstIndex(otps, LiveFor("a@b.io", "000002", 3000)) == None;
    assert BumpAsWritten(otps, "a@b.io", "000002") == otps;
    assert FirstIndex(otps, LiveFor("a@b.io", "123456", 4000)) == Some(0);
    assert FirstIndex(users, UserWithEmail("a@b.io")) == Some(0);
  }

  // ---------------------------------------------------------------- cleanupExpiredOTPs

  /** Lines 190-206: a row is deleted when it has expired, or is used and over a day old. */
  function Survives(now: Millis): Otp -> bool {
    (o: Otp) => !(o.expiresAt < now || (o.isUsed && o.createdAt < now - RetentionMillis))
  }

  method CleanupExpiredOtps(db: Db, now: Millis)
    modifies db`otps
    ensures db.otps == Filter(old(db.otps), Survives(now))
  {
    db.otps := Filter(db.otps, Survives(now));
  }

  /** Cleanup deletes exactly the expired rows and the used rows older than a day, keeps the
      rest in table order, and so never deletes a code that could still be accepted. */
  lemma CleanupRemovesExactly(otps: seq<Otp>, now: Millis, o: Otp)
    ensures o in Filter(otps, Survives(now)) <==>
              o in otps && o.expiresAt >= now && !(o.isUsed && o.createdAt < now - 86400000)
    ensures o in otps && LiveFor(o.email, o.code, now)(o) ==> o in Filter(otps, Survives(now))
  {
    FilterMember(otps, Survives(now), o);
  }

  /** Cleanup keeps "one outstanding code per address". */
  lemma {:induction false} CleanupKeepsOneOutstanding(otps: seq<Otp>, now: Millis)
    requires OneOutstanding(otps)
    ensures OneOutstanding(Filter(otps, Survives(now)))
    decreases |otps|
  {
    if otps != [] {
      var rest := otps[1..];
      assert OneOutstanding(rest) by {
        forall i, j | 0 <= i < |rest| && 0 <= j < |rest| && !rest[i].isUsed && !rest[j].isUsed &&
          rest[i].email == rest[j].email
          ensures i == j
        {
          assert rest[i] == otps[i + 1] && rest[j] == otps[j + 1];
        }
      }
      CleanupKeepsOneOutstanding(rest, now);
      var tail := Filter(rest, Survives(now));
      FilterCons(otps, Survives(now));
      if Survives(now)(otps[0]) && !otps[0].isUsed {
        forall i | 0 <= i < |tail| && !tail[i].isUsed
          ensures tail[i].email != otps[0].email
        {
          FilterMember(rest, Survives(now), tail[i]);
          var j :| 0 <= j < |rest| && rest[j] == tail[i];
          assert otps[j + 1] == tail[i];
        }
        var r := [otps[0]] + tail;
        forall i, j | 0 <= i < |r| && 0 <= j < |r| && !r[i].isUsed && !r[j].isUsed && r[i].email == r[j].email
          ensures i == j
        {
          if i > 0 && j > 0 {
            assert r[i] == tail[i - 1] && r[j] == tail[j - 1];
          }
        }
      }
    }
  }
}
