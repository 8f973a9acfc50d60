/**
 * The sign-in screen: the stored-token redirect, the checks `signIn()`
 * makes before it posts (both fields filled, then the email's shape) and
 * the login body.
 */
module SignIn {
  import opened Js
  import opened Http

  /** A character `[^\s@]` accepts: neither JavaScript white space nor '@'. */
  predicate PlainChar(c: char) { !IsSpace(c) && c != '@' }

  /** A run of `[^\s@]`, possibly empty. */
  predicate Plain(s: string) { forall i :: 0 <= i < |s| ==> PlainChar(s[i]) }

  /**
   * `/^[^\s@]+@[^\s@]+\.[^\s@]+$/` as written: a non-empty plain run, '@',
   * a non-empty plain run, '.', a non-empty plain run.
   */
  ghost predicate MatchesEmailRegex(s: string) {
    exists l: string, a: string, b: string {:trigger Plain(l), Plain(a), Plain(b)} ::
      |l| > 0 && |a| > 0 && |b| > 0 && Plain(l) && Plain(a) && Plain(b) && s == l + "@" + a + "." + b
  }

  /**
   * `emailRegex.test(email)`, by positions: an '@' at `i` and a '.' at `j`
   * with text before, between and after, none of it white space or '@'.
   */
  predicate IsEmail(s: string) {
    exists i, j :: 0 < i && i + 1 < j && j + 1 < |s| && s[i] == '@' && s[j] == '.'
      && Plain(s[..i]) && Plain(s[i + 1..j]) && Plain(s[j + 1..])
  }

  /** Cutting at an '@' and a '.' and gluing the parts back gives the string. */
  lemma CutAndGlue(s: string, i: int, j: int)
    requires 0 <= i < j < |s| && s[i] == '@' && s[j] == '.'
    ensures s == s[..i] + "@" + s[i + 1..j] + "." + s[j + 1..]
  {
    assert s == s[..i] + [s[i]] + s[i + 1..j] + [s[j]] + s[j + 1..];
  }

  /** The parts of a glued string are found again at their positions. */
  lemma GlueAndCut(l: string, a: string, b: string)
    ensures var s := l + "@" + a + "." + b;
      s[..|l|] == l && s[|l|] == '@' && s[|l| + 1..|l| + 1 + |a|] == a
      && s[|l| + 1 + |a|] == '.' && s[|l| + 2 + |a|..] == b
  {
  }

  /** Three non-empty plain parts glued into `s` witness the regex. */
  lemma WitnessesMatch(s: string, l: string, a: string, b: string)
    requires |l| > 0 && |a| > 0 && |b| > 0 && Plain(l) && Plain(a) && Plain(b)
    requires s == l + "@" + a + "." + b
    ensures MatchesEmailRegex(s)
  {
  }

  /** A match by positions is a match of the regex. */
  lemma IsEmailMatches(s: string)
    requires IsEmail(s)
    ensures MatchesEmailRegex(s)
  {
    var i, j :| 0 < i && i + 1 < j && j + 1 < |s| && s[i] == '@' && s[j] == '.'
      && Plain(s[..i]) && Plain(s[i + 1..j]) && Plain(s[j + 1..]);
    CutAndGlue(s, i, j);
    WitnessesMatch(s, s[..i], s[i + 1..j], s[j + 1..]);
  }

  /** A match of the regex is a match by positions. */
  lemma MatchesIsEmail(s: string)
    requires MatchesEmailRegex(s)
    ensures IsEmail(s)
  {
    var l: string, a: string, b: string :|
      |l| > 0 && |a| > 0 && |b| > 0 && Plain(l) && Plain(a) && Plain(b) && s == l + "@" + a + "." + b;
    GlueAndCut(l, a, b);
    var i, j := |l|, |l| + 1 + |a|;
    assert s[..i] == l && s[i + 1..j] == a && s[j + 1..] == b;
    assert 0 < i && i + 1 < j && j + 1 < |s| && s[i] == '@' && s[j] == '.';
  }

  /** The test by positions accepts exactly what the regex matches. */
  lemma IsEmailIsTheRegex(s: string)
    ensures IsEmail(s) <==> MatchesEmailRegex(s)
  {
    if IsEmail(s) {
      IsEmailMatches(s);
    }
    if MatchesEmailRegex(s) {
      MatchesIsEmail(s);
    }
  }

  /** An accepted email has no white space and exactly one '@', with text on both sides. */
  lemma AcceptedEmailShape(s: string)
    requires IsEmail(s)
    ensures forall k :: 0 <= k < |s| ==> !IsSpace(s[k])
    ensures exists i :: 0 < i < |s| - 1 && s[i] == '@' && forall k :: 0 <= k < |s| && s[k] == '@' ==> k == i
  {
    var i, j :| 0 < i && i + 1 < j && j + 1 < |s| && s[i] == '@' && s[j] == '.'
      && Plain(s[..i]) && Plain(s[i + 1..j]) && Plain(s[j + 1..]);
    forall k | 0 <= k < |s| && k != i
      ensures PlainChar(s[k])
    {
      if k < i {
        assert s[k] == s[..i][k];
      } else if k < j {
        assert s[k] == s[i + 1..j][k - i - 1];
      } else if k > j {
        assert s[k] == s[j + 1..][k - j - 1];
      }
    }
  }

  /** Some addresses the check accepts and rejects. */
  lemma EmailExamples()
    ensures IsEmail("a@b.c")
    ensures !IsEmail("a@b")
    ensures !IsEmail("@b.c")
    ensures !IsEmail("a@b.")
  {
    var s := "a@b.c";
    assert s[..1] == "a" && s[2..3] == "b" && s[4..] == "c";
    assert 0 < 1 && 1 + 1 < 3 && 3 + 1 < |s| && s[1] == '@' && s[3] == '.'
      && Plain(s[..1]) && Plain(s[1 + 1..3]) && Plain(s[3 + 1..]);
  }

  /** What `signIn()` comes to. */
  datatype SignInOutcome =
    | MissingInput          // 'กรุณากรอกข้อมูลให้ครบถ้วน', no request
    | BadEmail              // 'รูปแบบอีเมลไม่ถูกต้อง', no request
    | Posted(request: Request)

  const LoginPath := "/api/v1/auth/login"

  /** The state of `SignInComponent`: the token it found or received, and the two inputs. */
  class SignInScreen {
    var token: string
    var email: string
    var password: string

    constructor ()
      ensures token == "" && email == "" && password == ""
    {
      token, email, password := "", "", "";
    }

    /**
     * `ngOnInit()`: the stored token, '' when there is none, and a redirect
     * to the dashboard exactly when it is not ''.
     */
    method OnInit(stored: Option<string>) returns (redirect: bool)
      modifies this`token
      ensures token == (if stored.Some? then stored.value else "")
      ensures redirect <==> HasToken(stored)
    {
      token := if stored.Some? then stored.value else "";
      redirect := token != "";
    }

    /**
     * `signIn()`: an empty field stops it first, then an email the regex
     * rejects; only then is the login posted, with exactly the two inputs.
     */
    function SignIn(): (o: SignInOutcome)
      reads this`email, this`password
      ensures o.MissingInput? <==> email == "" || password == ""
      ensures o.BadEmail? <==> email != "" && password != "" && !IsEmail(email)
      ensures o.Posted? ==> o.request.verb == Post && o.request.path == LoginPath
      ensures o.Posted? ==> o.request.body.Keys == {"email", "password"}
      ensures o.Posted? ==> o.request.body["email"] == Str(email) && o.request.body["password"] == Str(password)
    {
      if email == "" || password == "" then MissingInput
      else if !IsEmail(email) then BadEmail
      else Posted(Request(Post, LoginPath, map["email" := Str(email), "password" := Str(password)]))
    }
  }

  /** A login is only ever posted with a non-empty password and an email of the regex's shape. */
  lemma SentLoginsAreWellFormed(sc: SignInScreen)
    requires sc.SignIn().Posted?
    ensures sc.password != "" && MatchesEmailRegex(sc.email)
  {
    IsEmailIsTheRegex(sc.email);
  }
}
