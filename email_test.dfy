/** The sample values the test route substitutes, and the character classes that
    show they cannot produce a placeholder. */
module TestSample {

  predicate KeyChar(c: char) {
    'a' <= c <= 'z' || c == '_'
  }

  /** A key: letters and underscores, as every key of the sample map. */
  predicate KeyWord(k: string) {
    |k| > 0 && forall i :: 0 <= i < |k| ==> KeyChar(k[i])
  }

  /** A character that can be part of no placeholder. */
  predicate Foreign(c: char) {
    !KeyChar(c) && c != '{' && c != '}'
  }

  /** A value that can neither complete nor extend a placeholder: no braces, and one
      character that no placeholder contains. */
  predicate Inert(v: string) {
    (forall i :: 0 <= i < |v| ==> v[i] != '{' && v[i] != '}') && exists i :: 0 <= i < |v| && Foreign(v[i])
  }

  /** Lines 78-91 (in `Object.entries` order); `partner_email` is the admin's address. */
  function TestVariables(adminEmail: string): seq<(string, string)> {
    [("partner_name", "John Doe"),
     ("program_name", "Test Affiliate Program"),
     ("referral_link", "https://example.com/ref/ABC123"),
     ("referral_name", "Jane Smith"),
     ("referral_email", "jane@example.com"),
     ("referral_count", "5"),
     ("amount", "$250.00"),
     ("payout_method", "PayPal"),
     ("partner_email", adminEmail),
     ("signup_link", "https://example.com/signup"),
     ("dashboard_link", "https://example.com/dashboard"),
     ("reason", "Does not meet our criteria")]
  }

  /** The keys of the sample map are key words. */
  lemma TestKeysAreKeyWords(adminEmail: string)
    ensures forall j :: 0 <= j < |TestVariables(adminEmail)| ==> KeyWord(TestVariables(adminEmail)[j].0)
  {
  }

  lemma NamesInert()
    ensures Inert("John Doe") && Inert("Jane Smith") && Inert("PayPal") && Inert("5")
  {
    assert Foreign("John Doe"[0]) && Foreign("Jane Smith"[0]) && Foreign("PayPal"[0]) && Foreign("5"[0]);
  }

  lemma PhrasesInert()
    ensures Inert("Test Affiliate Program") && Inert("Does not meet our criteria") && Inert("$250.00")
  {
    assert Foreign("Test Affiliate Program"[0]) && Foreign("Does not meet our criteria"[0]) && Foreign("$250.00"[0]);
  }

  lemma AddressesInert()
    ensures Inert("jane@example.com") && Inert("https://example.com/signup")
  {
    assert Foreign("jane@example.com"[4]) && Foreign("https://example.com/signup"[5]);
  }

  lemma LinksInert()
    ensures Inert("https://example.com/ref/ABC123") && Inert("https://example.com/dashboard")
  {
    assert Foreign("https://example.com/ref/ABC123"[5]) && Foreign("https://example.com/dashboard"[5]);
  }

  /** The sample map qualifies as soon as the admin's address does (an '@' suffices). */
  lemma TestVariablesInert(adminEmail: string)
    requires Inert(adminEmail)
    ensures forall j :: 0 <= j < |TestVariables(adminEmail)| ==>
              KeyWord(TestVariables(adminEmail)[j].0) && Inert(TestVariables(adminEmail)[j].1)
  {
    TestKeysAreKeyWords(adminEmail);
    NamesInert();
    PhrasesInert();
    AddressesInert();
    LinksInert();
  }
}

/** `POST /api/admin/emails/test`: render an e-mail template with fixed sample
    values for its `{{key}}` placeholders and log it as a sent test e-mail to the
    requesting admin. Each placeholder is replaced by a global regular expression
    on the literal text `{{key}}`, one key after the other; that is `ReplaceAll`
    below (the keys hold no character a regular expression treats specially). */
module EmailTest {
  import opened Common
  import opened Prisma
  import opened TestSample

  predicate StartsWith(s: string, p: string) {
    |p| <= |s| && s[..|p|] == p
  }

  /** `s.replace(/pat/g, v)` for a literal, non-empty pattern: scan left to right,
      replace each match and continue after it. */
  function ReplaceAll(s: string, pat: string, v: string): string
    requires |pat| > 0
    decreases |s|
  {
    if s == [] then []
    else if StartsWith(s, pat) then v + ReplaceAll(s[|pat|..], pat, v)
    else [s[0]] + ReplaceAll(s[1..], pat, v)
  }

  /** `p` occurs nowhere in `t`. */
  predicate NoOcc(t: string, p: string) {
    forall i :: 0 <= i <= |t| ==> !StartsWith(t[i..], p)
  }

  function Placeholder(key: string): string {
    "{{" + key + "}}"
  }

  /** Lines 94-98: the replacements, in order. */
  function SubstituteAll(s: string, vars: seq<(string, string)>): string
    decreases |vars|
  {
    if vars == [] then s
    else SubstituteAll(ReplaceAll(s, Placeholder(vars[0].0), vars[0].1), vars[1..])
  }

  // ---------------------------------------------------------------- what substitution promises

  /** A string without the pattern is returned as it is. */
  lemma {:induction false} ReplaceAllAbsent(s: string, pat: string, v: string)
    requires |pat| > 0 && NoOcc(s, pat)
    ensures ReplaceAll(s, pat, v) == s
    decreases |s|
  {
    if s != [] {
      assert !StartsWith(s[0..], pat);
      assert s[0..] == s;
      assert NoOcc(s[1..], pat) by {
        forall i | 0 <= i <= |s[1..]| ensures !StartsWith(s[1..][i..], pat) {
          assert s[1..][i..] == s[i + 1..];
        }
      }
      ReplaceAllAbsent(s[1..], pat, v);
    }
  }

  /** Text in which no mapped placeholder occurs (plain text, or placeholders of other keys)
      comes out unchanged. */
  lemma {:induction false} SubstituteAllAbsent(s: string, vars: seq<(string, string)>)
    requires forall j :: 0 <= j < |vars| ==> NoOcc(s, Placeholder(vars[j].0))
    ensures SubstituteAll(s, vars) == s
    decreases |vars|
  {
    if vars != [] {
      ReplaceAllAbsent(s, Placeholder(vars[0].0), vars[0].1);
      assert forall j :: 0 <= j < |vars| - 1 ==> vars[1..][j] == vars[j + 1];
      SubstituteAllAbsent(s, vars[1..]);
    }
  }

  /** A string that begins with the value cannot begin with `w`. */
  lemma ValueBlocksPrefix(v: string, x: string, w: string, c: char)
    requires |w| > 0 && w[|w| - 1] !in v && c in v && c !in w
    ensures !StartsWith(v + x, w)
  {
    if |v| >= |w| {
      assert (v + x)[|w| - 1] in v;
    } else {
      assert (v + x)[..|v|] == v;
    }
  }

  /** If the output of a replacement starts with `w`, and `w` can hold no whole copy of the
      value and does not end inside one, then those characters were copied from the input. */
  lemma {:induction false} CopiedPrefix(t: string, q: string, v: string, w: string, c: char)
    requires |q| > 0 && |w| > 0
    requires w[|w| - 1] !in v && c in v && c !in w
    requires StartsWith(ReplaceAll(t, q, v), w)
    ensures StartsWith(t, w)
    decreases |t|
  {
    var out := ReplaceAll(t, q, v);
    if t != [] {
      if StartsWith(t, q) {
        ValueBlocksPrefix(v, ReplaceAll(t[|q|..], q, v), w, c);
        assert false;
      } else {
        var rest := ReplaceAll(t[1..], q, v);
        assert out == [t[0]] + rest;
        if |w| > 1 {
          assert StartsWith(rest, w[1..]) by {
            assert rest[..|w| - 1] == out[1..|w|];
          }
          CopiedPrefix(t[1..], q, v, w[1..], c);
          assert t[..|w|] == [t[0]] + t[1..][..|w| - 1];
        }
      }
    }
  }

  lemma NoOccSuffix(s: string, p: string, k: nat)
    requires k <= |s| && NoOcc(s, p)
    ensures NoOcc(s[k..], p)
  {
    forall i | 0 <= i <= |s[k..]| ensures !StartsWith(s[k..][i..], p) {
      assert s[k..][i..] == s[k + i..];
    }
  }

  /** Replacing `q` by an inert value leaves no occurrence of `q` behind and creates no
      occurrence of another placeholder `p` that was absent. */
  lemma {:induction false} ReplaceLeavesNone(s: string, p: string, q: string, v: string, c: char)
    requires |q| > 0 && |p| >= 2
    requires p[0] !in v && p[|p| - 1] !in v && c in v && c !in p
    requires p == q || NoOcc(s, p)
    ensures NoOcc(ReplaceAll(s, q, v), p)
    decreases |s|
  {
    var out := ReplaceAll(s, q, v);
    if s == [] {
      assert forall i :: 0 <= i <= |out| ==> out[i..] == [];
    } else if StartsWith(s, q) {
      var tail := s[|q|..];
      if p != q {
        NoOccSuffix(s, p, |q|);
      }
      ReplaceLeavesNone(tail, p, q, v, c);
      var rest := ReplaceAll(tail, q, v);
      assert out == v + rest;
      forall i | 0 <= i <= |out| ensures !StartsWith(out[i..], p) {
        if i < |v| {
          assert out[i..][0] == v[i];
        } else {
          assert out[i..] == rest[i - |v|..];
        }
      }
    } else {
      var tail := s[1..];
      if p != q {
        NoOccSuffix(s, p, 1);
        NoOccSuffix(s, p, 0);
        assert s[0..] == s;
      }
      ReplaceLeavesNone(tail, p, q, v, c);
      var rest := ReplaceAll(tail, q, v);
      assert out == [s[0]] + rest;
      forall i | 0 <= i <= |out| ensures !StartsWith(out[i..], p) {
        if i == 0 {
          if StartsWith(out, p) {
            CopiedPrefix(s, q, v, p, c);
            assert false;
          }
        } else {
          assert out[i..] == rest[i - 1..];
        }
      }
    }
  }

  /** The characters of a placeholder are braces and key characters. */
  lemma ForeignNotInPlaceholder(key: string, c: char)
    requires KeyWord(key) && Foreign(c)
    ensures c !in Placeholder(key)
  {
    assert Placeholder(key) == "{{" + key + "}}";
  }

  /** When every key is a key word and every value is inert, no placeholder of any mapped key
      survives the substitution, whatever the template. */
  lemma {:induction false} SubstituteAllClears(s: string, vars: seq<(string, string)>, done: seq<string>)
    requires forall j :: 0 <= j < |vars| ==> KeyWord(vars[j].0) && Inert(vars[j].1)
    requires forall d :: d in done ==> KeyWord(d) && NoOcc(s, Placeholder(d))
    ensures forall d :: d in done ==> NoOcc(SubstituteAll(s, vars), Placeholder(d))
    ensures forall j :: 0 <= j < |vars| ==> NoOcc(SubstituteAll(s, vars), Placeholder(vars[j].0))
    decreases |vars|
  {
    if vars != [] {
      var (key, v) := vars[0];
      var i :| 0 <= i < |v| && Foreign(v[i]);
      var c := v[i];
      var q := Placeholder(key);
      var s1 := ReplaceAll(s, q, v);
      forall d | d in done + [key] ensures KeyWord(d) && NoOcc(s1, Placeholder(d)) {
        ForeignNotInPlaceholder(d, c);
        ReplaceLeavesNone(s, Placeholder(d), q, v, c);
      }
      assert forall j :: 0 <= j < |vars| - 1 ==> vars[1..][j] == vars[j + 1];
      SubstituteAllClears(s1, vars[1..], done + [key]);
      assert forall j :: 0 <= j < |vars| ==> vars[j].0 in done + [key] || vars[j] in vars[1..] by {
        forall j | 0 <= j < |vars| ensures vars[j].0 in done + [key] || vars[j] in vars[1..] {
          if j > 0 {
            assert vars[j] == vars[1..][j - 1];
          }
        }
      }
    }
  }

  /** Without a character foreign to every key, a value can complete a placeholder: here
      `{{c}} -> "b"` turns `{{a{{c}}}}` into `{{ab}}`. */
  lemma ValueCanCompletePlaceholder()
    ensures ReplaceAll("{{a{{c}}}}", "{{c}}", "b") == "{{ab}}"
  {
    var s := "{{a{{c}}}}";
    var q := "{{c}}";
    assert ReplaceAll("}}", q, "b") == "}}" by {
      assert !StartsWith("}}", q) && !StartsWith("}", q);
      assert "}}"[1..] == "}" && "}"[1..] == [];
    }
    assert ReplaceAll(s[3..], q, "b") == "b}}" by {
      assert StartsWith(s[3..], q);
      assert s[3..][5..] == "}}";
    }
    assert s[1..][1..][1..] == s[3..];
    assert !StartsWith(s, q) && !StartsWith(s[1..], q) && !StartsWith(s[2..], q);
    assert s[1..][1..] == s[2..];
  }

  // ---------------------------------------------------------------- the handler

  /** Lines 94-98: the `forEach` over the entries, rewriting subject and body in turn. */
  method ApplyTestVariables(subject: string, body: string, vars: seq<(string, string)>)
    returns (testSubject: string, testBody: string)
    ensures testSubject == SubstituteAll(subject, vars)
    ensures testBody == SubstituteAll(body, vars)
  {
    testSubject, testBody := subject, body;
    var k := 0;
    while k < |vars|
      invariant 0 <= k <= |vars|
      invariant SubstituteAll(subject, vars) == SubstituteAll(testSubject, vars[k..])
      invariant SubstituteAll(body, vars) == SubstituteAll(testBody, vars[k..])
    {
      var (key, value) := vars[k];
      assert vars[k..][1..] == vars[k + 1..];
      testSubject := ReplaceAll(testSubject, Placeholder(key), value);
      testBody := ReplaceAll(testBody, Placeholder(key), value);
      k := k + 1;
    }
  }

  function TemplateWithId(id: Id): EmailTemplate -> bool {
    (t: EmailTemplate) => t.id == id
  }

  /** The route: `templateId` is `None` when absent. The cookie check trusts the token's
      role claim: a missing, invalid or non-admin token is 401. */
  method Post(db: Db, token: Token, templateId: Option<Id>, now: Millis)
    returns (status: int, log: Option<EmailLog>)
    modifies db`emailLogs
    ensures !(token.Claims? && token.role == "ADMIN") ==> status == 401
    ensures token.Claims? && token.role == "ADMIN" && !Truthy(templateId) ==> status == 400
    ensures status != 200 <==> log.None?
    ensures status != 200 ==> db.emailLogs == old(db.emailLogs)
    ensures token.Claims? && token.role == "ADMIN" && Truthy(templateId) ==>
              match (FirstIndex(db.emailTemplates, TemplateWithId(templateId.value)),
                     Find(db.users, UserWithId(token.userId)))
              case (None, _) => status == 404
              case (_, None) => status == 404
              case (Some(t), Some(admin)) =>
                var template := db.emailTemplates[t];
                var vars := TestVariables(admin.email);
                && status == 200
                && log == Some(EmailLog(template.id, token.userId, admin.email,
                                        SubstituteAll(template.subject, vars),
                                        SubstituteAll(template.body, vars),
                                        "SENT", now, true, token.userId))
                && db.emailLogs == old(db.emailLogs) + [log.value]
  {
    log := None;
    if !token.Claims? || token.role != "ADMIN" {
      return 401, None;
    }
    if !Truthy(templateId) {
      return 400, None;
    }
    var t := FirstIndex(db.emailTemplates, TemplateWithId(templateId.value));
    if t.None? {
      return 404, None;
    }
    var template := db.emailTemplates[t.value];
    var admin := Find(db.users, UserWithId(token.userId));
    if admin.None? {
      return 404, None;
    }
    var subject, body := ApplyTestVariables(template.subject, template.body, TestVariables(admin.value.email));
    var entry := EmailLog(template.id, token.userId, admin.value.email, subject, body, "SENT", now, true, token.userId);
    db.emailLogs := db.emailLogs + [entry];
    return 200, Some(entry);
  }

  /** The logged test e-mail carries no `{{key}}` of the sample map, whatever the template,
      when the admin's address has a character no key has (an '@'). */
  lemma LoggedEmailHasNoPlaceholder(template: EmailTemplate, adminEmail: string, j: nat)
    requires Inert(adminEmail) && j < 12
    ensures NoOcc(SubstituteAll(template.subject, TestVariables(adminEmail)), Placeholder(TestVariables(adminEmail)[j].0))
    ensures NoOcc(SubstituteAll(template.body, TestVariables(adminEmail)), Placeholder(TestVariables(adminEmail)[j].0))
  {
    TestVariablesInert(adminEmail);
    SubstituteAllClears(template.subject, TestVariables(adminEmail), []);
    SubstituteAllClears(template.body, TestVariables(adminEmail), []);
  }
}
