/** The asset path resolver of `lib/public-path.ts`: a logical asset path is
    prefixed with the deployment's base path, read from the environment
    variable NEXT_PUBLIC_BASE_PATH. The variable is an explicit argument here:
    `None` when it is not set. */
module PublicPath {
  import opened Wrappers

  predicate StartsWithSlash(s: string)
  {
    |s| > 0 && s[0] == '/'
  }

  predicate EndsWithSlash(s: string)
  {
    |s| > 0 && s[|s| - 1] == '/'
  }

  /** `value.replace(/\/$/, "")`: without the multiline flag `$` matches only
      at the very end of the string, so at most one final slash goes. */
  function TrimTrailingSlash(value: string): (r: string)
    ensures r <= value && |value| - 1 <= |r|
    ensures EndsWithSlash(value) <==> r + "/" == value
    ensures !EndsWithSlash(value) <==> r == value
  {
    if EndsWithSlash(value) then value[..|value| - 1] else value
  }

  /** Trimming undoes the appending of one slash, whatever the string. */
  lemma TrimUndoesAppendedSlash(s: string)
    ensures TrimTrailingSlash(s + "/") == s
  {
    assert EndsWithSlash(s + "/");
    assert (s + "/")[..|s|] == s;
  }

  /** The base prefix: an unset or empty variable is falsy in JavaScript and
      gives the empty prefix; otherwise the trimmed value. */
  function BasePath(env: Option<string>): (r: string)
    ensures env == None || env == Some("") ==> r == ""
    ensures env.Some? && env.value != "" ==> r == TrimTrailingSlash(env.value)
  {
    match env
    case None => ""
    case Some(v) => if v != "" then TrimTrailingSlash(v) else ""
  }

  /** `"/"` when the asset path is not root-relative, else nothing. */
  function Separator(assetPath: string): (r: string)
    ensures r == "" <==> StartsWithSlash(assetPath)
    ensures r != "" ==> r == "/"
  {
    if StartsWithSlash(assetPath) then "" else "/"
  }

  /** The asset path made root-relative: the part of the result that follows
      the base prefix. */
  function Rooted(assetPath: string): string
  {
    Separator(assetPath) + assetPath
  }

  /** `getPublicPath(assetPath)` with the environment as an argument. */
  function GetPublicPath(env: Option<string>, assetPath: string): (r: string)
    ensures BasePath(env) <= r
    ensures |r| == |BasePath(env)| + |Separator(assetPath)| + |assetPath|
    ensures r[|r| - |assetPath|..] == assetPath
    ensures StartsWithSlash(r[|BasePath(env)|..])
  {
    var r := BasePath(env) + Separator(assetPath) + assetPath;
    assert r[|r| - |assetPath|..] == assetPath;
    assert r[|BasePath(env)|..] == Separator(assetPath) + assetPath;
    r
  }

  /** Removing the base prefix from a resolved path gives back the asset path,
      with a slash in front exactly when it had none. */
  lemma StripBaseGivesRooted(env: Option<string>, assetPath: string)
    ensures var r := GetPublicPath(env, assetPath);
            r[|BasePath(env)|..] == Rooted(assetPath)
    ensures StartsWithSlash(assetPath) ==> Rooted(assetPath) == assetPath
    ensures !StartsWithSlash(assetPath) ==> Rooted(assetPath) == "/" + assetPath
  {
    var b := BasePath(env);
    var r := GetPublicPath(env, assetPath);
    assert r == b + Rooted(assetPath);
    assert r[|b|..] == Rooted(assetPath);
  }

  /** Resolution is injective in the asset path's rooted form: two asset
      paths resolve to the same URL exactly when their rooted forms agree. */
  lemma ResolveInjective(env: Option<string>, a1: string, a2: string)
    ensures GetPublicPath(env, a1) == GetPublicPath(env, a2) <==> Rooted(a1) == Rooted(a2)
  {
    StripBaseGivesRooted(env, a1);
    StripBaseGivesRooted(env, a2);
  }

  /** With no base path the result is the rooted asset path itself. */
  lemma NoBaseIsRooted(env: Option<string>, assetPath: string)
    requires env == None || env == Some("")
    ensures GetPublicPath(env, assetPath) == Rooted(assetPath)
  {
  }

  /** The base prefix ends with a slash only when the variable ended with two. */
  lemma BaseEndsWithSlashOnlyAfterDoubleSlash(v: string)
    ensures EndsWithSlash(BasePath(Some(v))) <==> |v| >= 2 && v[|v| - 2..] == "//"
  {
    if |v| >= 2 && v[|v| - 2] == '/' && v[|v| - 1] == '/' {
      assert v[|v| - 2..] == "//";
    }
    if |v| >= 2 && v[|v| - 2..] == "//" {
      assert v[|v| - 2] == '/' && v[|v| - 1] == '/';
    }
  }

  lemma ExampleNoBase()
    ensures GetPublicPath(None, "/textures/x.png") == "/textures/x.png"
  {
  }

  lemma ExampleAppBase()
    ensures GetPublicPath(Some("/app/"), "/textures/x.png") == "/app/textures/x.png"
  {
    assert BasePath(Some("/app/")) == "/app";
  }

  lemma ExampleTrimsOneSlashOnly()
    ensures TrimTrailingSlash("/app//") == "/app/"
  {
  }

  lemma ExampleEmptyAsset(env: Option<string>)
    ensures GetPublicPath(env, "") == BasePath(env) + "/"
  {
  }
}
