/** The URL rule and the mount guard of the 3D mesh viewer
    (src/components/BodyMeshViewer.jsx). Loading, geometry repair and rendering
    are foreign three.js calls and are not part of this model. */
module MeshViewer {
  import opened Wrappers

  /** The API base URL used when no environment override is configured. */
  const DefaultApiBaseUrl: string := "http://localhost:8000"

  /** The prefix that marks a mesh URL as already absolute. */
  const AbsoluteMarker: string := "http"

  predicate StartsWith(s: string, prefix: string) {
    |prefix| <= |s| && s[..|prefix|] == prefix
  }

  /** `fullUrl` in MeshModel: a URL starting with "http" is used as it is, any
      other is appended to the base URL with no separator added or removed. */
  function ResolveUrl(base: string, url: string): (full: string)
    ensures StartsWith(url, AbsoluteMarker) ==> full == url
    ensures !StartsWith(url, AbsoluteMarker) ==> full == base + url
    ensures |full| >= |url| && full[|full| - |url|..] == url
    ensures StartsWith(base, AbsoluteMarker) ==> StartsWith(full, AbsoluteMarker)
  {
    if StartsWith(url, AbsoluteMarker) then url else base + url
  }

  /** With an absolute base (the default is one), resolving twice is resolving once. */
  lemma ResolveIdempotent(base: string, url: string)
    requires StartsWith(base, AbsoluteMarker)
    ensures ResolveUrl(base, ResolveUrl(base, url)) == ResolveUrl(base, url)
  {
  }

  lemma DefaultBaseIsAbsolute()
    ensures StartsWith(DefaultApiBaseUrl, AbsoluteMarker)
    ensures forall url :: ResolveUrl(DefaultApiBaseUrl, ResolveUrl(DefaultApiBaseUrl, url))
                          == ResolveUrl(DefaultApiBaseUrl, url)
  {
    assert DefaultApiBaseUrl[..4] == "http";
    forall url {
      ResolveIdempotent(DefaultApiBaseUrl, url);
    }
  }

  /** The absolute test is a bare prefix test: "https://…" passes, and so does a
      relative path such as "httpx/m.obj"; a path starting with "/" does not. */
  lemma PrefixTestExamples()
    ensures ResolveUrl(DefaultApiBaseUrl, "https://cdn/m.obj") == "https://cdn/m.obj"
    ensures ResolveUrl(DefaultApiBaseUrl, "httpx/m.obj") == "httpx/m.obj"
    ensures ResolveUrl(DefaultApiBaseUrl, "/meshes/123.obj") == "http://localhost:8000/meshes/123.obj"
  {
    assert "https://cdn/m.obj"[..4] == "http";
    assert "httpx/m.obj"[..4] == "http";
    assert "/meshes/123.obj"[0] == '/';
  }

  /** With a relative base (possible through the environment override) a second
      resolution prefixes the base again. */
  lemma RelativeBaseNotIdempotent()
    ensures ResolveUrl("/api", "/m.obj") == "/api/m.obj"
    ensures ResolveUrl("/api", ResolveUrl("/api", "/m.obj")) == "/api/api/m.obj"
  {
    assert "/m.obj"[0] == '/';
    assert "/api/m.obj"[0] == '/';
  }

  /** What the viewer shows: the waiting placeholder, or the model loaded from a URL. */
  datatype View = Placeholder | Model(fullUrl: string)

  /** JavaScript truthiness of an optional string: absent and "" are falsy. */
  predicate Truthy(s: Option<string>) {
    s.Some? && s.value != ""
  }

  /** BodyMeshViewer: `MeshModel` is mounted only when `meshUrl` is truthy, and the
      placeholder is shown exactly when it is not. */
  function ViewFor(base: string, meshUrl: Option<string>): (v: View)
    ensures v.Placeholder? <==> (meshUrl.None? || meshUrl.value == "")
    ensures v.Model? ==> meshUrl.Some? && v.fullUrl == ResolveUrl(base, meshUrl.value)
  {
    if Truthy(meshUrl) then Model(ResolveUrl(base, meshUrl.value)) else Placeholder
  }
}
