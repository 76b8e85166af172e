/** The profile editor: the name must not be blank after trimming, the email
    must contain a match of the unanchored pattern `\S+@\S+\.\S+`, and only
    then is the session's `updateUser` called, with the loading flag raised
    around it. */
module EditProfile {
  import opened JsRuntime
  import opened AuthContext

  /** No whitespace in `s[lo..hi]`. */
  ghost predicate SolidBetween(s: string, lo: int, hi: int)
    requires 0 <= lo <= hi <= |s|
  {
    forall k | lo <= k < hi :: !IsWhitespace(s[k])
  }

  /** Some substring of `s` matches `\S+@\S+\.\S+`: an '@' at `a` and a '.'
      at `d > a + 1`, with no whitespace from `a - 1` through `d + 1`. */
  ghost predicate HasEmailShape(s: string) {
    exists a, d | 1 <= a && a + 1 < d && d + 1 < |s| ::
      s[a] == '@' && s[d] == '.' && SolidBetween(s, a - 1, d + 2)
  }

  /** What the left-to-right matcher remembers about the text read so far:
      which partial matches of the pattern end at its last character. */
  datatype MatchState = MatchState(
    inWord: bool,   // `\S+`
    atSign: bool,   // `\S+@`
    domain: bool,   // `\S+@\S+`
    dot: bool,      // `\S+@\S+\.`
    matched: bool)  // the whole pattern matched somewhere

  const Start: MatchState := MatchState(false, false, false, false, false)

  function Step(m: MatchState, c: char): MatchState {
    var solid := !IsWhitespace(c);
    MatchState(
      solid,
      c == '@' && m.inWord,
      solid && (m.atSign || m.domain),
      c == '.' && m.domain,
      m.matched || (solid && m.dot))
  }

  function Run(s: string): MatchState {
    if s == [] then Start else Step(Run(s[..|s| - 1]), s[|s| - 1])
  }

  /** `/\S+@\S+\.\S+/.test(s)`. */
  predicate EmailPatternTest(s: string) {
    Run(s).matched
  }

  // What each flag of the state means for the text read so far.

  ghost predicate EndsInWord(s: string) {
    |s| >= 1 && !IsWhitespace(s[|s| - 1])
  }

  ghost predicate EndsAtSign(s: string) {
    |s| >= 2 && s[|s| - 1] == '@' && !IsWhitespace(s[|s| - 2])
  }

  ghost predicate EndsInDomain(s: string) {
    exists a | 1 <= a <= |s| - 2 :: s[a] == '@' && SolidBetween(s, a - 1, |s|)
  }

  ghost predicate EndsAtDot(s: string) {
    |s| >= 1 && s[|s| - 1] == '.' && EndsInDomain(s[..|s| - 1])
  }

  ghost predicate Tracks(s: string, m: MatchState) {
    && m.inWord == EndsInWord(s)
    && m.atSign == EndsAtSign(s)
    && m.domain == EndsInDomain(s)
    && m.dot == EndsAtDot(s)
    && m.matched == HasEmailShape(s)
  }

  lemma DomainStep(p: string, c: char)
    ensures EndsInDomain(p + [c]) <==> !IsWhitespace(c) && (EndsAtSign(p) || EndsInDomain(p))
  {
    var s, n := p + [c], |p|;
    if EndsInDomain(s) {
      var a :| 1 <= a <= |s| - 2 && s[a] == '@' && SolidBetween(s, a - 1, |s|);
      assert !IsWhitespace(s[n]);
      if a == n - 1 {
        assert !IsWhitespace(s[a - 1]);
        assert EndsAtSign(p);
      } else {
        assert p[a] == '@' && SolidBetween(p, a - 1, n) by {
          forall k | a - 1 <= k < n ensures !IsWhitespace(p[k]) { assert p[k] == s[k]; }
        }
        assert EndsInDomain(p);
      }
    }
    if !IsWhitespace(c) && EndsAtSign(p) {
      var a := n - 1;
      assert s[a] == '@' && s[a - 1] == p[n - 2] && s[n] == c;
      assert SolidBetween(s, a - 1, |s|);
      assert EndsInDomain(s);
    }
    if !IsWhitespace(c) && EndsInDomain(p) {
      var a :| 1 <= a <= |p| - 2 && p[a] == '@' && SolidBetween(p, a - 1, |p|);
      assert s[a] == '@';
      assert SolidBetween(s, a - 1, |s|) by {
        forall k | a - 1 <= k < |s| ensures !IsWhitespace(s[k]) {
          if k < n { assert s[k] == p[k]; }
        }
      }
      assert EndsInDomain(s);
    }
  }

  /** A match in `p + [c]` either lies in `p` or ends at `c`. */
  lemma ShapeStepSplits(p: string, c: char)
    requires HasEmailShape(p + [c])
    ensures HasEmailShape(p) || (!IsWhitespace(c) && EndsAtDot(p))
  {
    var s, n := p + [c], |p|;
    var a, d :| 1 <= a && a + 1 < d && d + 1 < |s| &&
                s[a] == '@' && s[d] == '.' && SolidBetween(s, a - 1, d + 2);
    if d + 1 < n {
      // the match lies inside p
      assert p[a] == '@' && p[d] == '.';
      assert SolidBetween(p, a - 1, d + 2) by {
        forall k | a - 1 <= k < d + 2 ensures !IsWhitespace(p[k]) { assert p[k] == s[k]; }
      }
      assert HasEmailShape(p);
    } else {
      // the match ends with c, right after the '.' that ends p
      var q := p[..n - 1];
      assert d == n - 1 && p[d] == '.' && c == s[d + 1];
      assert q[a] == '@';
      assert SolidBetween(q, a - 1, |q|) by {
        forall k | a - 1 <= k < |q| ensures !IsWhitespace(q[k]) { assert q[k] == s[k]; }
      }
      assert EndsInDomain(q);
      assert EndsAtDot(p);
    }
  }

  /** A match in `p` is still a match once a character is appended. */
  lemma ShapeStepKeeps(p: string, c: char)
    requires HasEmailShape(p)
    ensures HasEmailShape(p + [c])
  {
    var s := p + [c];
    var a, d :| 1 <= a && a + 1 < d && d + 1 < |p| &&
                p[a] == '@' && p[d] == '.' && SolidBetween(p, a - 1, d + 2);
    assert s[a] == '@' && s[d] == '.';
    assert SolidBetween(s, a - 1, d + 2) by {
      forall k | a - 1 <= k < d + 2 ensures !IsWhitespace(s[k]) { assert s[k] == p[k]; }
    }
  }

  /** A non-whitespace character after `\S+@\S+\.` completes a match. */
  lemma ShapeStepCompletes(p: string, c: char)
    requires !IsWhitespace(c) && EndsAtDot(p)
    ensures HasEmailShape(p + [c])
  {
    var s, n := p + [c], |p|;
    var q := p[..n - 1];
    var a :| 1 <= a <= |q| - 2 && q[a] == '@' && SolidBetween(q, a - 1, |q|);
    var d := n - 1;
    assert s[a] == '@' && s[d] == '.';
    assert SolidBetween(s, a - 1, d + 2) by {
      forall k | a - 1 <= k < d + 2 ensures !IsWhitespace(s[k]) {
        if k < d { assert s[k] == q[k]; }
      }
    }
  }

  lemma ShapeStep(p: string, c: char)
    ensures HasEmailShape(p + [c]) <==> HasEmailShape(p) || (!IsWhitespace(c) && EndsAtDot(p))
  {
    if HasEmailShape(p + [c]) { ShapeStepSplits(p, c); }
    if HasEmailShape(p) { ShapeStepKeeps(p, c); }
    if !IsWhitespace(c) && EndsAtDot(p) { ShapeStepCompletes(p, c); }
  }

  lemma StepTracks(p: string, c: char, m: MatchState)
    requires Tracks(p, m)
    ensures Tracks(p + [c], Step(m, c))
  {
    DomainStep(p, c);
    ShapeStep(p, c);
    assert (p + [c])[..|p|] == p;
  }

  lemma {:induction false} RunTracks(s: string)
    ensures Tracks(s, Run(s))
  {
    if s == [] {
      assert !HasEmailShape(s);
      assert !EndsInDomain(s);
    } else {
      var p := s[..|s| - 1];
      RunTracks(p);
      StepTracks(p, s[|s| - 1], Run(p));
      assert s == p + [s[|s| - 1]];
    }
  }

  /** The matcher accepts exactly the strings that contain the pattern. */
  lemma EmailPatternTestIsShape(s: string)
    ensures EmailPatternTest(s) <==> HasEmailShape(s)
  {
    RunTracks(s);
  }

  /** A matching email is never blank, so the `!email.trim()` half of the
      email check never decides anything on its own. */
  lemma ShapeIsNotBlank(s: string)
    ensures HasEmailShape(s) ==> !Blank(s)
  {
    if HasEmailShape(s) {
      var a, d :| 1 <= a && a + 1 < d && d + 1 < |s| &&
                  s[a] == '@' && s[d] == '.' && SolidBetween(s, a - 1, d + 2);
      assert !IsWhitespace(s[a]);
    }
  }

  /** The outcome of the checks in `handleSave`. */
  datatype ProfileCheck =
    | NameEmpty     // "Name cannot be empty"
    | EmailInvalid  // "Please enter a valid email"
    | ProfileValid  // `updateUser` is called

  /** The name check first, then the email check. */
  method CheckProfile(name: string, email: string) returns (r: ProfileCheck)
    ensures r == NameEmpty <==> Blank(name)
    ensures r == EmailInvalid <==> !Blank(name) && !HasEmailShape(email)
    ensures r == ProfileValid <==> !Blank(name) && HasEmailShape(email)
  {
    TrimEmptyIffBlank(name);
    TrimEmptyIffBlank(email);
    EmailPatternTestIsShape(email);
    ShapeIsNotBlank(email);
    if Trim(name) == "" {
      r := NameEmpty;
    } else if Trim(email) == "" || !EmailPatternTest(email) {
      r := EmailInvalid;
    } else {
      r := ProfileValid;
    }
  }

  /** A plain name and address pass. */
  lemma ProfileExamples()
    ensures !Blank("Ana") && HasEmailShape("ana@example.com")
  {
    var s := "ana@example.com";
    assert s[3] == '@' && s[11] == '.';
    assert SolidBetween(s, 2, 13);
    assert !IsWhitespace("Ana"[0]);
  }

  /** A domain without a dot has no match, and a name of spaces is blank. */
  lemma RejectedProfileExamples()
    ensures !HasEmailShape("ana@example") && Blank("  ")
  {
    var s := "ana@example";
    assert forall d | 0 <= d < |s| :: s[d] != '.';
  }

  /** The form field for `key`: the user's value, or '' when there is no
      user or no such field. */
  function InitialField(user: Option<UserRecord>, key: string): string {
    if user.Some? && key in user.value then user.value[key] else ""
  }

  /** The update `handleSave` passes: the untrimmed fields. */
  function ProfilePatch(name: string, email: string): UserRecord {
    map["name" := name, "email" := email]
  }

  /** Reopening the editor after a successful save shows the fields as they
      were saved, whatever the user held before; every other field of the
      user is kept. */
  lemma ReopeningShowsSavedFields(user: Option<UserRecord>, name: string, email: string)
    ensures InitialField(Some(Merge(user, ProfilePatch(name, email))), "name") == name
    ensures InitialField(Some(Merge(user, ProfilePatch(name, email))), "email") == email
    ensures user.Some? ==> forall k | k in user.value && k != "name" && k != "email" ::
      Merge(user, ProfilePatch(name, email))[k] == user.value[k]
  {
  }

  datatype ProfileAlert = ProfileError(message: Thrown) | ProfileSaved

  /** The profile screen's state. `pending` is the update handed to
      `updateUser` while that call is in flight. */
  class ProfileEditor {
    const auth: AuthSession
    var name: string
    var email: string
    var loading: bool
    var pending: Option<UserRecord>
    var alert: Option<ProfileAlert>
    var wentBack: bool

    /** `loading` is raised exactly while an update is in flight. */
    ghost predicate Valid()
      reads this
    {
      loading <==> pending.Some?
    }

    constructor (auth: AuthSession)
      ensures Valid() && this.auth == auth
      ensures name == InitialField(auth.user, "name") && email == InitialField(auth.user, "email")
      ensures !loading && alert == None && !wentBack
    {
      this.auth := auth;
      name := InitialField(auth.user, "name");
      email := InitialField(auth.user, "email");
      loading := false;
      pending := None;
      alert := None;
      wentBack := false;
    }

    method SetName(text: string)
      modifies this`name
      ensures name == text
    {
      name := text;
    }

    method SetEmail(text: string)
      modifies this`email
      ensures email == text
    {
      email := text;
    }

    /** "Save Changes" (disabled while loading): the two checks, then the
      call to `updateUser` with the untrimmed fields, with `loading` raised.
      A failed check shows its message and starts no call. */
    method HandleSave() returns (check: ProfileCheck)
      requires Valid() && !loading && alert == None
      modifies this`loading, this`pending, this`alert
      ensures Valid()
      ensures check == NameEmpty <==> Blank(name)
      ensures check == EmailInvalid <==> !Blank(name) && !HasEmailShape(email)
      ensures check == ProfileValid <==> !Blank(name) && HasEmailShape(email)
      ensures check == NameEmpty ==> alert == Some(ProfileError(Text("Name cannot be empty"))) && !loading
      ensures check == EmailInvalid ==> alert == Some(ProfileError(Text("Please enter a valid email"))) && !loading
      ensures check == ProfileValid ==>
        loading && pending == Some(ProfilePatch(name, email)) && alert == None
    {
      check := CheckProfile(name, email);
      match check {
        case NameEmpty =>
          alert := Some(ProfileError(Text("Name cannot be empty")));
        case EmailInvalid =>
          alert := Some(ProfileError(Text("Please enter a valid email")));
        case ProfileValid =>
          loading := true;
          pending := Some(ProfilePatch(name, email));
      }
    }

    /** `updateUser` runs with the update handed to it, then `loading` is
      lowered and its result is shown: the success alert, or the result's
      message. */
    method FinishSave(written: Outcome<()>)
      requires Valid() && loading
      modifies this`loading, this`pending, this`alert, auth
      ensures Valid() && !loading
      ensures auth.isAuthenticated == old(auth.isAuthenticated) && auth.loading == old(auth.loading)
      ensures written.Ok? ==>
        auth.user == Some(Merge(old(auth.user), old(pending.value))) && alert == Some(ProfileSaved)
      ensures written.Fail? ==>
        auth.user == old(auth.user) && alert == Some(ProfileError(UpdateFailureMessage))
    {
      var result := auth.UpdateUser(pending.value, written);
      loading := false;
      pending := None;
      if result.Success? {
        alert := Some(ProfileSaved);
      } else {
        alert := Some(ProfileError(result.message));
      }
    }

    /** "OK" on the success alert navigates back. */
    method AcknowledgeSaved()
      requires alert == Some(ProfileSaved)
      modifies this`alert, this`wentBack
      ensures alert == None && wentBack
    {
      alert := None;
      wentBack := true;
    }

    /** "OK" on an error alert. */
    method DismissError()
      requires alert.Some? && alert.value.ProfileError?
      modifies this`alert
      ensures alert == None
    {
      alert := None;
    }
  }

  /** A client run: renaming a signed-in user saves the new name and keeps
      the email, and a reopened editor shows the new name; a rejected write
      leaves the user as it was. */
  method RenameScenario(auth: AuthSession, written: Outcome<()>)
    requires auth.user == Some(map["name" := "Ana", "email" := "ana@example.com"])
    modifies auth
  {
    var before := auth.user;
    var editor := new ProfileEditor(auth);
    assert editor.name == "Ana" && editor.email == "ana@example.com";
    editor.SetName("Ana Maria");
    ProfileExamples();
    assert !IsWhitespace("Ana Maria"[0]);
    assert !Blank(editor.name) && HasEmailShape(editor.email);
    var check := editor.HandleSave();
    assert check == ProfileValid && editor.pending == Some(ProfilePatch("Ana Maria", "ana@example.com"));
    editor.FinishSave(written);
    if written.Ok? {
      ReopeningShowsSavedFields(before, "Ana Maria", "ana@example.com");
      var reopened := new ProfileEditor(auth);
      assert reopened.name == "Ana Maria" && reopened.email == "ana@example.com";
    } else {
      assert auth.user == before;
    }
  }
}
