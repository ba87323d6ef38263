/** The endpoint normalization `connect_http` applies before it stores the base URL. */
module Url {
  import opened Strings

  /** The mount path every HTTP endpoint is normalized to end with. */
  const MountPath: string := "/mcp/"

  /** Appends the shortest of `"/"`, `"mcp/"` or `"/mcp/"` that completes the mount
      path, or nothing when the URL already ends with it. */
  function NormalizeUrl(url: string): (r: string)
    ensures EndsWith(r, MountPath)
    ensures StartsWith(r, url)
    ensures EndsWith(url, MountPath) ==> r == url
  {
    if EndsWith(url, MountPath) then url
    else if EndsWith(url, "/mcp") then url + "/"
    else if EndsWith(url, "/") then url + "mcp/"
    else url + MountPath
  }

  /** An endpoint given without any part of the mount path. */
  predicate IsBareHost(h: string) {
    !EndsWith(h, "/") && !EndsWith(h, "/mcp")
  }

  /** Normalizing twice is normalizing once. */
  lemma NormalizeIdempotent(url: string)
    ensures NormalizeUrl(NormalizeUrl(url)) == NormalizeUrl(url)
  {
  }

  lemma EndsWithAppended(a: string, b: string)
    ensures EndsWith(a + b, b)
  {
    assert (a + b)[|a + b| - |b|..] == b;
  }

  lemma EndsWithLastChar(s: string, p: string)
    ensures EndsWith(s, p) && |p| > 0 ==> |s| > 0 && s[|s| - 1] == p[|p| - 1]
  {
    if EndsWith(s, p) && |p| > 0 {
      assert s[|s| - |p|..][|p| - 1] == s[|s| - 1];
    }
  }

  /** `h + "/"` ends with the mount path exactly when `h` ends with `"/mcp"`. */
  lemma SlashCompletesMount(h: string)
    ensures EndsWith(h + "/", MountPath) <==> EndsWith(h, "/mcp")
  {
    var b := h + "/";
    if |h| >= 4 {
      assert b[|b| - 5..] == h[|h| - 4..] + "/";
      assert h[|h| - 4..] == b[|b| - 5..][..4];
      assert MountPath[..4] == "/mcp";
    }
  }

  /** The four ways of writing one endpoint, `h`, `h/mcp`, `h/` and `h/mcp/`, all
      normalize to `h/mcp/`. */
  lemma NormalizeFourShapes(h: string)
    requires IsBareHost(h)
    ensures NormalizeUrl(h) == h + MountPath
    ensures NormalizeUrl(h + "/mcp") == h + MountPath
    ensures NormalizeUrl(h + "/") == h + MountPath
    ensures NormalizeUrl(h + MountPath) == h + MountPath
  {
    EndsWithLastChar(h, MountPath);
    EndsWithLastChar(h, "/");
    var a := h + "/mcp";
    EndsWithAppended(h, "/mcp");
    EndsWithLastChar(a, MountPath);
    assert a[|a| - 1] == 'p';
    assert a + "/" == h + MountPath;
    var b := h + "/";
    EndsWithAppended(h, "/");
    SlashCompletesMount(h);
    EndsWithLastChar(b, "/mcp");
    assert b[|b| - 1] == '/';
    assert b + "mcp/" == h + MountPath;
    EndsWithAppended(h, MountPath);
  }
}
