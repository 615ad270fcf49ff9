/**
 * The page header: the title chosen from the current path, and the name shown for the
 * signed-in user.
 */
module Header {
  import opened Wrappers
  import opened Strings

  /** The six titles the header can show. */
  const Titles: set<string> := {
    "Dashboard", "Image Upload", "Patient History", "Resources",
    "Classification Results", "Diabetic Retinopathy Classification"
  }

  /** `getPageTitle`: four exact paths, then any path under "/results/", then a fallback. */
  function PageTitle(path: string): (t: string)
    ensures t in Titles
  {
    if path == "/dashboard" then "Dashboard"
    else if path == "/upload" then "Image Upload"
    else if path == "/history" then "Patient History"
    else if path == "/resources" then "Resources"
    else if StartsWith(path, "/results/") then "Classification Results"
    else "Diabetic Retinopathy Classification"
  }

  /** Each page title names exactly one path: no other path reaches it. */
  lemma ExactPathTitles(path: string)
    ensures PageTitle(path) == "Dashboard" <==> path == "/dashboard"
    ensures PageTitle(path) == "Image Upload" <==> path == "/upload"
    ensures PageTitle(path) == "Patient History" <==> path == "/history"
    ensures PageTitle(path) == "Resources" <==> path == "/resources"
  {
  }

  /** Every path under "/results/", and nothing else, is titled as a classification result. */
  lemma ResultsPrefixTitle(path: string)
    ensures PageTitle(path) == "Classification Results" <==> |path| >= 9 && path[..9] == "/results/"
  {
    if |path| >= 9 && path[..9] == "/results/" {
      assert path != "/dashboard" && path != "/upload" && path != "/history" && path != "/resources" by {
        assert path[4] == 'u';
      }
    }
  }

  /** The link to any scan's results page, "/results/" followed by the scan's id, is titled
      as a classification result, whatever the id. */
  lemma ResultsPathTitle(id: string)
    ensures PageTitle("/results/" + id) == "Classification Results"
  {
    var path := "/results/" + id;
    assert path[..9] == "/results/";
    ResultsPrefixTitle(path);
  }

  /** The fallback title is shown exactly for the paths that are none of the four and not
      under "/results/". */
  lemma DefaultTitle(path: string)
    ensures PageTitle(path) == "Diabetic Retinopathy Classification"
        <==> path !in {"/dashboard", "/upload", "/history", "/resources"} && !StartsWith(path, "/results/")
  {
  }

  /** Matching is exact: "/results" without its slash and "/dashboard/" with one fall back to
      the default title, while "/results/" alone is under the prefix. */
  lemma NearMissPaths()
    ensures PageTitle("/results") == "Diabetic Retinopathy Classification"
    ensures PageTitle("/dashboard/") == "Diabetic Retinopathy Classification"
    ensures PageTitle("/results/") == "Classification Results"
  {
    ResultsPrefixTitle("/results");
    ResultsPrefixTitle("/dashboard/");
    assert "/dashboard/"[..9][1] != "/results/"[1];
    ResultsPrefixTitle("/results/");
    assert "/results/"[..9] == "/results/";
  }

  /** The signed-in user as the authentication context provides it; the name may be absent. */
  datatype User = User(name: Option<string>)

  /** `user?.name || 'Doctor'`: the user's name when there is a user with a non-empty name,
      and "Doctor" otherwise (an empty name is falsy). */
  function DisplayName(user: Option<User>): (n: string)
    ensures user.Some? && user.value.name.Some? && user.value.name.value != "" ==> n == user.value.name.value
    ensures user.None? || user.value.name.None? || user.value.name.value == "" ==> n == "Doctor"
  {
    match user
    case None => "Doctor"
    case Some(u) =>
      match u.name
      case Some(name) => if name != "" then name else "Doctor"
      case None => "Doctor"
  }

  /** The header never shows an empty name. */
  lemma DisplayNameNeverEmpty(user: Option<User>)
    ensures DisplayName(user) != ""
  {
  }
}
