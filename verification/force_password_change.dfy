/** The "must change password" gate: a set of flagged users kept in the host's per-user
    metadata, the checks that set and clear a flag, and the per-request decisions that read it. */
module ForcePasswordChange {

  import opened PhpStrings
  import opened Options

  /** A host user id. Ids start at 1: the metadata functions refuse id 0, which
      `get_current_user_id` returns when nobody is logged in. */
  type UserId = x: int | x >= 1 witness 1

  datatype Session = Anonymous | LoggedIn(user: UserId)

  /** Where a request is served: the public site, or an admin screen named by its `base`. */
  datatype Request = FrontEnd | AdminScreen(base: string)

  /** What the gate does with a request: let it through, or redirect and end it. */
  datatype Outcome = NoAction | RedirectAndExit(adminPath: string)

  /** The admin page a flagged user is sent to. */
  const ProfilePage: string := "profile.php"

  /** `get_current_user_id`: 0 stands for "nobody is logged in". */
  function CurrentUserId(session: Session): (id: nat)
    ensures session.LoggedIn? ==> id == session.user
    ensures id == 0 <==> session.Anonymous?
  {
    match session
    case Anonymous => 0
    case LoggedIn(user) => user
  }

  /** A submitted field of the profile form, read as `updated` reads it: "" when it is absent. */
  function Field(post: map<string, string>, name: string): (v: string)
    ensures name !in post ==> EmptyString(v)
    ensures name in post ==> v == post[name]
  {
    if name in post then post[name] else ""
  }

  /** The guard of `updated` on the two password fields: they must be equal, neither may be
      PHP-empty, and the first must not hold a backslash once `stripslashes` has run. */
  predicate UpdateAccepted(pass1: string, pass2: string)
    ensures UpdateAccepted(pass1, pass2) ==> pass1 == pass2 && |pass1| >= 1 && pass1 != "0"
  {
    !(pass1 != pass2 || EmptyString(pass1) || EmptyString(pass2) || '\\' in StripSlashes(pass1))
  }

  /** Whether a submitted profile form clears the submitter's flag. */
  predicate UpdateClears(post: map<string, string>)
    ensures UpdateClears(post) ==> "pass1" in post && "pass2" in post && post["pass1"] == post["pass2"]
  {
    UpdateAccepted(Field(post, "pass1"), Field(post, "pass2"))
  }

  /** The flags after `registered(user)`. */
  function AfterRegister(flags: set<UserId>, user: UserId): (r: set<UserId>)
    ensures user in r
    ensures forall v :: v != user ==> (v in r <==> v in flags)
  {
    flags + {user}
  }

  /** The flags after `updated(user)` with the submitted form `post`. */
  function AfterUpdate(flags: set<UserId>, user: UserId, post: map<string, string>): (r: set<UserId>)
    ensures r <= flags
    ensures forall v :: v != user ==> (v in r <==> v in flags)
    ensures user in r <==> user in flags && !UpdateClears(post)
  {
    if UpdateClears(post) then flags - {user} else flags
  }

  /** `redirect`, run on both the front-end and the admin request hooks. */
  function RedirectDecision(session: Session, flags: set<UserId>, request: Request): (o: Outcome)
    ensures o.RedirectAndExit? <==> session.LoggedIn? && session.user in flags && request.FrontEnd?
    ensures o.RedirectAndExit? ==> o.adminPath == ProfilePage
  {
    if session.Anonymous? then NoAction
    else if CurrentUserId(session) !in flags then NoAction
    else
      match request
      // the profile and plugins screens return early, and every other admin screen
      // falls through: no admin screen is redirected
      case AdminScreen(_) => NoAction
      case FrontEnd => RedirectAndExit(ProfilePage)
  }

  /** `notice`: whether the "please change your password" notice is printed. It looks up
      the current user id, which for an anonymous request is 0 and never flagged. */
  predicate NoticeShown(session: Session, flags: set<UserId>)
    ensures NoticeShown(session, flags) <==> session.LoggedIn? && session.user in flags
  {
    CurrentUserId(session) in flags
  }

  /** A missing password field never lets an update through. */
  lemma MissingFieldKeepsFlag(flags: set<UserId>, user: UserId, post: map<string, string>)
    requires "pass1" !in post || "pass2" !in post
    ensures AfterUpdate(flags, user, post) == flags
  {
  }

  /** A password without backslashes passes the backslash check, so any such password
      that is not "" or "0", submitted twice, clears the flag. */
  lemma BackslashFreePasswordAccepted(password: string)
    requires '\\' !in password && !EmptyString(password)
    ensures UpdateAccepted(password, password)
  {
    StripSlashesIdentity(password);
  }

  /** The backslash check rejects a field only where it holds two backslashes in a row. */
  lemma BackslashRejectionNeedsPair(pass1: string, pass2: string)
    requires pass1 == pass2 && !EmptyString(pass1) && !UpdateAccepted(pass1, pass2)
    ensures exists i :: 0 <= i < |pass1| - 1 && pass1[i] == '\\' && pass1[i + 1] == '\\'
  {
    BackslashNeedsPair(pass1);
  }

  /** The host escapes request fields with `addslashes` before the plugin reads them. In terms
      of what the user typed, an update is accepted exactly when the two typed passwords are
      equal, are not "" or "0", and contain no backslash. */
  lemma TypedPasswordsAccepted(typed1: string, typed2: string)
    ensures UpdateAccepted(AddSlashes(typed1), AddSlashes(typed2))
        <==> typed1 == typed2 && !EmptyString(typed1) && '\\' !in typed1
  {
    StripAfterAdd(typed1);
    AddSlashesKeepsEmptiness(typed1);
    AddSlashesKeepsEmptiness(typed2);
    if AddSlashes(typed1) == AddSlashes(typed2) {
      AddSlashesInjective(typed1, typed2);
    }
  }

  /** The notice is shown to a logged-in user exactly when that user is flagged, and never
      to an anonymous request, whatever the flags. */
  lemma NoticeIffFlagged(session: Session, flags: set<UserId>)
    ensures session.LoggedIn? ==> (NoticeShown(session, flags) <==> session.user in flags)
    ensures !NoticeShown(Anonymous, flags)
  {
  }

  /** A flagged user on an admin screen, including any screen other than profile and plugins,
      is let through and sees the notice instead. */
  lemma FlaggedAdminScreen(flags: set<UserId>, user: UserId, base: string)
    requires user in flags
    ensures RedirectDecision(LoggedIn(user), flags, AdminScreen(base)) == NoAction
    ensures NoticeShown(LoggedIn(user), flags)
  {
  }

  /** Whenever a request is redirected, the notice would be shown to the same user. */
  lemma RedirectImpliesNotice(session: Session, flags: set<UserId>, request: Request)
    requires RedirectDecision(session, flags, request).RedirectAndExit?
    ensures NoticeShown(session, flags)
  {
  }

  /** The decision reads only the current user's flag: flag sets that agree on that user
      give the same outcome, so registering or updating another user never changes it. */
  lemma RedirectReadsOwnFlagOnly(flags1: set<UserId>, flags2: set<UserId>, user: UserId, request: Request)
    requires user in flags1 <==> user in flags2
    ensures RedirectDecision(LoggedIn(user), flags1, request) == RedirectDecision(LoggedIn(user), flags2, request)
  {
  }

  /** A newly registered user is sent to the profile page from the public site. */
  lemma RegisteredUserRedirected(flags: set<UserId>, user: UserId)
    ensures RedirectDecision(LoggedIn(user), AfterRegister(flags, user), FrontEnd) == RedirectAndExit(ProfilePage)
  {
  }

  /** After an accepted update the user is redirected nowhere and sees no notice. */
  lemma AcceptedUpdateReleases(flags: set<UserId>, user: UserId, post: map<string, string>, request: Request)
    requires UpdateClears(post)
    ensures RedirectDecision(LoggedIn(user), AfterUpdate(flags, user, post), request) == NoAction
    ensures !NoticeShown(LoggedIn(user), AfterUpdate(flags, user, post))
  {
  }

  /** The host stores the plugin reads and writes: the users whose metadata holds the
      `force-password-change` entry, and the option table. */
  class Site {
    var flagged: set<UserId>
    var options: OptionTable

    constructor (flagged: set<UserId>, options: OptionTable)
      ensures this.flagged == flagged && this.options == options
    {
      this.flagged := flagged;
      this.options := options;
    }

    /** `registered`: flags the new user unconditionally. */
    method Registered(user: UserId)
      modifies this`flagged
      ensures flagged == AfterRegister(old(flagged), user)
    {
      flagged := flagged + {user};
    }

    /** `updated`: clears the user's flag when the submitted form passes the guard. */
    method Updated(user: UserId, post: map<string, string>)
      modifies this`flagged
      ensures flagged == AfterUpdate(old(flagged), user, post)
      ensures flagged <= old(flagged) && old(flagged) - flagged <= {user}
    {
      var pass1, pass2 := "", "";
      if "pass1" in post {
        pass1 := post["pass1"];
      }
      if "pass2" in post {
        pass2 := post["pass2"];
      }
      if pass1 != pass2 || EmptyString(pass1) || EmptyString(pass2) || '\\' in StripSlashes(pass1) {
        return;
      }
      flagged := flagged - {user};
    }

    /** `add_option`. */
    method AddOption(name: string, value: OptionValue)
      modifies this`options
      ensures options == Added(old(options), name, value)
    {
      if name !in options {
        options := options[name := value];
      }
    }

    /** `delete_option`. */
    method DeleteOption(name: string)
      modifies this`options
      ensures options == Deleted(old(options), name)
    {
      options := options - {name};
    }

    /** `activate_plugin`: seeds the four settings without overwriting any. */
    method ActivatePlugin()
      modifies this`options
      ensures options == Activated(old(options))
    {
      AddOption(EnforceAdminKey, IntVal(1));
      AddOption(AllowWeakAdminKey, IntVal(0));
      AddOption(AllowWeakUserKey, IntVal(1));
      AddOption(RedirectLinkKey, StrVal(""));
    }

    /** `delete_plugin`: removes the four settings and nothing else. */
    method DeletePlugin()
      modifies this`options
      ensures options == Removed(old(options))
    {
      DeleteOption(EnforceAdminKey);
      DeleteOption(AllowWeakAdminKey);
      DeleteOption(AllowWeakUserKey);
      DeleteOption(RedirectLinkKey);
    }

    /** `redirect` against the current flags; it changes nothing. */
    method Redirect(session: Session, request: Request) returns (o: Outcome)
      ensures o.RedirectAndExit? <==> session.LoggedIn? && session.user in flagged && request.FrontEnd?
      ensures o.RedirectAndExit? ==> o.adminPath == ProfilePage
    {
      o := RedirectDecision(session, flagged, request);
    }
  }

  /** Two requests in a row with nothing in between get the same decision, and neither
      changes a flag or an option. */
  method RepeatedRequest(site: Site, session: Session, request: Request) returns (first: Outcome, second: Outcome)
    ensures first == second
  {
    first := site.Redirect(session, request);
    second := site.Redirect(session, request);
  }
}
