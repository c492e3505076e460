# Force Password Change — a Dafny model

A model of the WordPress plugin "Force Password Change" (`force-password-change.php`). The
plugin keeps a per-user `force-password-change` metadata entry meaning "this user must change
their password". It sets the entry when a user registers. It deletes the entry when the user
submits their own profile form with an acceptable password pair. On every request it sends a
flagged user from the public site to the admin profile page. On admin screens it prints a
notice to flagged users. On activation it seeds four settings in the option table, and on
uninstall it deletes them. Two helpers render a setting as a checkbox attribute or as a row style.

Three modules, one file each:

- `PhpStrings` (`php_strings.dfy`): PHP's `empty()` on strings, `stripslashes`, and
  `addslashes`. WordPress applies `addslashes` to every request field before a plugin reads
  it, so `AddSlashes` is the partner against which `StripSlashes` is proved (a round trip).
- `Options` (`options.dfy`): the option table as a `map`, `get_option`, `add_option`,
  `delete_option`, the tables after `activate_plugin` and `delete_plugin`, and the two
  rendering helpers `set_option_status` and `set_element_visibility`.
- `ForcePasswordChange` (`force_password_change.dfy`): the guard of `updated`, the decisions
  of `redirect` and `notice` as functions, and a class `Site` holding the host's stores (the
  set of flagged users and the option table) whose methods `Registered`, `Updated`,
  `ActivatePlugin` and `DeletePlugin` change them in place, as the plugin's hooks do.

The model follows the code where the code and the plugin's own comments or wider
documentation differ:

- `registered` flags every new user. No role or setting is consulted.
- `redirect` redirects only on the public site. A flagged user on any admin screen is let
  through, not only on the profile and plugins screens that the comment above `redirect`
  names. Those two screens return early, and every other admin screen falls through to the
  same "no action".
- The redirect target is always the admin `profile.php`. The custom-redirect setting is
  seeded, and read only to render its row on the settings page; no decision reads it.
- None of the four settings is read by any decision. There is no weak-password rejection
  and no settings-form handler in this file.

Inputs that come from the host are parameters. These are the session (`Session`), the screen a
request is served on (`Request`), and the submitted form fields (`post`, a map from field name
to string). The per-user metadata and the option table are the fields of `Site`. The redirect
followed by `exit` is the terminal outcome `RedirectAndExit`.

## Model

| member | source | states |
|---|---|---|
| `PhpStrings.EmptyString` | force-password-change.php:152-154 | PHP's `empty()` on a string: only "" and "0" are empty, so no string of two or more characters is |
| `PhpStrings.StripSlashes` | force-password-change.php:156 | `stripslashes` never lengthens a string |
| `PhpStrings.AddSlashes` | force-password-change.php:143-147 | the host's escaping of submitted fields never shortens a string |
| `PhpStrings.StripSlashesIdentity` | force-password-change.php:156 | `stripslashes` leaves a string without backslashes unchanged |
| `PhpStrings.StripAfterAdd` | force-password-change.php:156 | `stripslashes` undoes the host's `addslashes` on every string |
| `PhpStrings.AddSlashesInjective` | force-password-change.php:150 | two different typed strings never arrive as the same slashed string, so comparing slashed fields compares what was typed |
| `PhpStrings.AddSlashesKeepsEmptiness` | force-password-change.php:152-154 | a slashed field is PHP-empty ("" or "0") exactly when the typed one is |
| `PhpStrings.BackslashNeedsPair` | force-password-change.php:156 | a backslash remains after `stripslashes` only if the input holds two backslashes in a row |
| `Options.Empty` | force-password-change.php:295-301 | `empty()` on an option value holds for exactly four values: 0, "", "0" and `false` |
| `Options.GetOption` | force-password-change.php:296 | a stored key reads as its value; a missing key reads as an empty value (`false`) |
| `Options.Added` | force-password-change.php:105-108 | `add_option` adds the key with the value when absent and never overwrites an existing key |
| `Options.Deleted` | force-password-change.php:115-118 | `delete_option` removes exactly that key and keeps every other entry |
| `Options.Activated` | force-password-change.php:104-109 | activation adds the four keys; an absent key gets its default (1, 0, 1, ''), a present key and every other key keep their values |
| `Options.Removed` | force-password-change.php:114-119 | uninstall removes exactly the four keys and keeps every other entry unchanged |
| `Options.ActivateIdempotent` | force-password-change.php:104-109 | activating twice gives the same table as activating once |
| `Options.UninstallForgetsActivation` | force-password-change.php:104-119 | uninstall after activation leaves the same table as uninstall alone |
| `Options.RemovedIgnoresPluginKeys` | force-password-change.php:114-119 | two tables that agree outside the four settings are identical after uninstall |
| `Options.ReinstallRestoresDefaults` | force-password-change.php:104-119 | activation after uninstall gives the four defaults, whatever was stored before |
| `Options.SetOptionStatus` | force-password-change.php:295-297 | the result is `checked` exactly when the option is stored with a non-empty value, and '' otherwise |
| `Options.SetElementVisibility` | force-password-change.php:299-301 | the result is '' (row shown) exactly when the option is stored with a non-empty value, and the hiding style otherwise |
| `Options.CheckedIffVisible` | force-password-change.php:295-301 | a setting renders `checked` exactly when the row it controls renders visible |
| `Options.FreshInstallRendering` | force-password-change.php:104-109 | on a site without the settings, after activation, enforcement renders ticked, weak admin passwords unticked, weak user passwords ticked, and the custom-URL row hidden |
| `Options.UninstalledRendering` | force-password-change.php:114-119 | after uninstall each of the four settings renders unticked and its row hidden |
| `ForcePasswordChange.CurrentUserId` | force-password-change.php:174 | the current user id is the logged-in user's id, and it is 0 exactly when nobody is logged in |
| `ForcePasswordChange.Field` | force-password-change.php:141-147 | a submitted field reads as its value, and a missing one as "", which is PHP-empty |
| `ForcePasswordChange.UpdateAccepted` | force-password-change.php:149-158 | the guard passes only for two equal fields that are not "" or "0" |
| `ForcePasswordChange.UpdateClears` | force-password-change.php:141-158 | a submitted form clears the flag only when both password fields are present and equal |
| `ForcePasswordChange.NoticeShown` | force-password-change.php:189-198 | the notice is printed exactly for a logged-in user who is flagged; an anonymous request (user id 0) never sees it |
| `ForcePasswordChange.AfterRegister` | force-password-change.php:133-136 | after registration the user is flagged whatever before, and no other user's flag changes |
| `ForcePasswordChange.AfterUpdate` | force-password-change.php:139-162 | an update never adds a flag and changes no other user's flag; the user stays flagged exactly when flagged before and the form fails the guard |
| `ForcePasswordChange.RedirectDecision` | force-password-change.php:169-186 | a request is redirected exactly when a logged-in, flagged user is on the public site, and then to `profile.php`; anonymous and unflagged users and all admin screens get no action |
| `ForcePasswordChange.MissingFieldKeepsFlag` | force-password-change.php:141-154 | an update with either password field absent leaves the flags unchanged |
| `ForcePasswordChange.BackslashFreePasswordAccepted` | force-password-change.php:149-158 | a password without backslashes, other than "" and "0", submitted in both fields passes the guard |
| `ForcePasswordChange.BackslashRejectionNeedsPair` | force-password-change.php:149-158 | when two equal non-empty fields are rejected, the field holds two backslashes in a row |
| `ForcePasswordChange.TypedPasswordsAccepted` | force-password-change.php:143-158 | for slashed request fields, the guard passes exactly when the typed passwords are equal, are not "" or "0", and contain no backslash |
| `ForcePasswordChange.NoticeIffFlagged` | force-password-change.php:189-198 | the notice is shown to a logged-in user exactly when that user is flagged, and never to an anonymous request |
| `ForcePasswordChange.FlaggedAdminScreen` | force-password-change.php:174-180 | a flagged user on any admin screen is not redirected and sees the notice |
| `ForcePasswordChange.RedirectImpliesNotice` | force-password-change.php:169-198 | every redirected request belongs to a user who would see the notice |
| `ForcePasswordChange.RedirectReadsOwnFlagOnly` | force-password-change.php:174 | the decision depends only on the current user's own flag |
| `ForcePasswordChange.RegisteredUserRedirected` | force-password-change.php:133-136 | a newly registered user is redirected to `profile.php` from the public site |
| `ForcePasswordChange.AcceptedUpdateReleases` | force-password-change.php:160 | after an accepted update the user is redirected nowhere and sees no notice |
| `ForcePasswordChange.Site.Registered` | force-password-change.php:133-136 | the flag set becomes the old one plus the user |
| `ForcePasswordChange.Site.Updated` | force-password-change.php:139-162 | the flag set loses the user exactly when the submitted form passes the guard; nothing is added and only the user can leave |
| `ForcePasswordChange.Site.AddOption` | force-password-change.php:105 | the option table is updated as by `add_option` |
| `ForcePasswordChange.Site.DeleteOption` | force-password-change.php:115 | the option table is updated as by `delete_option` |
| `ForcePasswordChange.Site.ActivatePlugin` | force-password-change.php:104-109 | the option table becomes the activated table of the old one (add-only) |
| `ForcePasswordChange.Site.DeletePlugin` | force-password-change.php:114-119 | the option table loses exactly the four settings |
| `ForcePasswordChange.Site.Redirect` | force-password-change.php:169-186 | the outcome is a redirect to `profile.php` exactly for a flagged, logged-in user on the public site; the method changes no state |
| `ForcePasswordChange.RepeatedRequest` | force-password-change.php:169-186 | two requests in a row with nothing in between get the same decision |

## Left out

- `UpdateAccepted`: compares the two fields with exact string equality. PHP's `!=` compares two numeric strings by number, so the plugin also accepts a pair such as "10" and "1e1". Numeric-string comparison is not modelled.
- Hook registration, the singleton instance, text-domain loading and script enqueueing (force-password-change.php:67-99, 122-130, 303-309). These are host wiring with no decision of their own.
- The settings page and menu entry (force-password-change.php:200-293), the two view templates and both JavaScript files. They only render HTML or toggle elements in the browser.
- The host primitives are not modelled: metadata and option storage, `is_admin`, `get_current_screen`, `admin_url`, `wp_redirect` and `exit`. They appear as the fields of `Site`, as parameters, and as the `RedirectAndExit` outcome. The redirect target is the admin-relative path `profile.php`, not the full URL `admin_url` builds.
- The flag is set membership. `add_user_meta` can store duplicate rows, but `delete_user_meta` removes all of them, and `get_user_meta` reads the stored `1` as truthy.
- Option values are integers, strings or booleans. Arrays, floats and `null` are not modelled. A value read back from the database arrives as a string, and PHP-emptiness is the same either way ("0" and 0).
- PHP strings are byte strings; the model uses sequences of characters.
- `Field`: a submitted field is modelled as a string only. PHP also accepts an array there (`pass1[]=x&pass2[]=x`): such a pair is loosely equal and not empty, so it reaches the `stripslashes` call, which on PHP 8 throws a TypeError (the flag is kept) and on PHP 7 returns NULL, in which case the backslash test passes and the flag is cleared without a password being set. Array-valued fields are not modelled.
- User ids start at 1 (`UserId`): the host's metadata functions refuse id 0, so the id 0 of an anonymous request is never flagged.
- No settings-form handler is modelled, so there is no policy round trip. Weak-password rejection, role-dependent registration and the administrator's flag checkbox on another user's profile are not modelled either. None of them is implemented in force-password-change.php.
