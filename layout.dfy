/**
 * The launch-time routing of the root layout (`app/_layout.tsx`): read the
 * saved user and, when there is one, send the app to the home of that user's
 * kind; without one the app stays on the registration screens.
 */
module Layout {
  import opened Js
  import opened Storage

  /** The two tab groups a logged-in user can be sent to. */
  datatype Redirect = PersonHome | DoctorDashboard

  /** The route that `router.replace` is given. */
  function Path(r: Redirect): (p: string)
    ensures |p| > 2 && p[..2] == "/("
    ensures p == "/(tabs_person)/home" <==> r == PersonHome
  {
    match r
    case PersonHome => "/(tabs_person)/home"
    case DoctorDashboard => "/(tabs_doctor)/dashboard"
  }

  /** The decision inside `checkUserLogin`: no redirect for a falsy user;
      the person home when `user.type === 'normal'`; the doctor dashboard for
      every other truthy user, whatever its `type`. */
  function LaunchRedirect(user: Value): (r: Option<Redirect>)
    ensures r.None? <==> !Truthy(user)
    ensures r == Some(PersonHome) <==> Truthy(user) && Member(user, "type") == Some(Str("normal"))
    ensures r == Some(DoctorDashboard) <==> Truthy(user) && Member(user, "type") != Some(Str("normal"))
  {
    if !Truthy(user) then None
    else if Member(user, "type") == Some(Str("normal")) then Some(PersonHome)
    else Some(DoctorDashboard)
  }

  /** `checkUserLogin`: `getUser`, then the decision; the result is the
      redirect it performs, if any. */
  method CheckUserLogin(store: Store, readFails: bool) returns (r: Option<Redirect>)
    ensures r == LaunchRedirect(Fetched(store.entries, UserKey, Null, readFails))
  {
    var user := store.GetUser(readFails);
    r := LaunchRedirect(user);
  }
}

/** How the launch routing follows what the store holds. */
module LayoutFacts {
  import opened Js
  import opened Storage
  import StorageFacts
  import opened Layout

  /** A fresh install, a removed user and a failed read all leave the app on
      the registration screens. */
  lemma NoUserNoRedirect(entries: map<string, Value>, readFails: bool)
    requires readFails || UserKey !in entries
    ensures LaunchRedirect(Fetched(entries, UserKey, Null, readFails)) == None
    ensures LaunchRedirect(Fetched(Removed(entries, UserKey, false), UserKey, Null, false)) == None
  {
  }

  /** Once a user record is saved, the next launch routes on its `type`:
      `"normal"` to the person home, anything else to the doctor dashboard. */
  lemma SavedUserRoutes(entries: map<string, Value>, fields: map<string, Value>)
    ensures var r := LaunchRedirect(Fetched(Written(entries, UserKey, Obj(fields), false), UserKey, Null, false));
      r == if "type" in fields && fields["type"] == Str("normal") then Some(PersonHome) else Some(DoctorDashboard)
  {
  }

  /** Adding posts or consultations never changes where the app launches. */
  lemma ListsDoNotRoute(entries: map<string, Value>, item: Value, key: string, readFails: bool, writeFails: bool, userFails: bool)
    requires key == PostsKey || key == ConsultationsKey
    ensures LaunchRedirect(Fetched(Added(entries, key, item, readFails, writeFails), UserKey, Null, userFails))
         == LaunchRedirect(Fetched(entries, UserKey, Null, userFails))
  {
    StorageFacts.KeysDistinct();
    StorageFacts.OtherKeysRead(entries, key, UserKey, item, Null, readFails, writeFails, userFails);
  }
}
