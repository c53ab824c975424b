/**
  The LinkedIn profile URL rules of test-linkedin.js: the validity test and
  the username extraction `url.split('/in/')[1]?.split('/')[0]`.
*/
module LinkedIn {
  import opened Wrappers
  import opened Text

  const InMarker := "/in/"
  const InPath := "linkedin.com" + InMarker
  const PubPath := "linkedin.com" + "/pub/"

  /** `validateLinkedInUrl`: the URL contains a profile or public-profile path. */
  function ValidUrl(url: string): (r: bool)
    ensures r <==> (exists i: nat :: OccursAt(url, InPath, i)) || (exists i: nat :: OccursAt(url, PubPath, i))
  {
    var a, b := Contains(url, InPath), Contains(url, PubPath);
    assert a ==> OccursAt(url, InPath, IndexOf(url, InPath));
    assert b ==> OccursAt(url, PubPath, IndexOf(url, PubPath));
    a || b
  }

  /** The first piece of a split is a prefix that stops at the first separator or at the end. */
  lemma FirstPiece(s: string, sep: string)
    requires |sep| > 0
    ensures StartsWith(s, Split(s, sep)[0])
    ensures Split(s, sep)[0] == s || OccursAt(s, sep, |Split(s, sep)[0]|)
    ensures !Contains(Split(s, sep)[0], sep)
  {
    SplitPartsFree(s, sep);
  }

  /** A string without the one-character string "/" has no '/' in it. */
  lemma NoSlash(s: string)
    requires !Contains(s, "/")
    ensures forall m :: 0 <= m < |s| ==> s[m] != '/'
  {
    forall m | 0 <= m < |s| ensures s[m] != '/' {
      if s[m] == '/' {
        assert s[m..m + 1] == "/";
        ContainsAt(s, "/", m);
      }
    }
  }

  /**
    The first `/`-separated piece of the first `/in/`-separated piece of
    `rest` is a prefix of `rest` without '/', ending at a '/' or at the end.
  */
  lemma SegmentOf(rest: string)
    ensures StartsWith(rest, Split(Split(rest, InMarker)[0], "/")[0])
    ensures forall m :: 0 <= m < |Split(Split(rest, InMarker)[0], "/")[0]| ==> Split(Split(rest, InMarker)[0], "/")[0][m] != '/'
    ensures |rest| == |Split(Split(rest, InMarker)[0], "/")[0]| || rest[|Split(Split(rest, InMarker)[0], "/")[0]|] == '/'
  {
    var piece := Split(rest, InMarker)[0];
    var v := Split(piece, "/")[0];
    FirstPiece(rest, InMarker);
    FirstPiece(piece, "/");
    NoSlash(v);
    assert rest[..|piece|] == piece;
    assert rest[..|v|] == v by { assert piece[..|v|] == v; }
    if v != piece {
      assert piece[|v|..|v| + 1] == "/";
      assert rest[|v|] == piece[|v|];
    } else if piece != rest {
      assert OccursAt(rest, InMarker, |piece|);
      assert rest[|piece|..|piece| + 4] == InMarker;
      assert rest[|piece|] == rest[|piece|..|piece| + 4][0] == InMarker[0] == '/';
    }
  }

  /**
    The extracted username: absent without a `/in/`; otherwise the text
    after the first `/in/`, up to the next `/` or the end.
  */
  function Username(url: string): (r: Option<string>)
    ensures r.None? <==> !Contains(url, InMarker)
    ensures r.Some? ==>
      IndexOf(url, InMarker) >= 0
      && StartsWith(url[IndexOf(url, InMarker) + |InMarker|..], r.value)
      && (forall m :: 0 <= m < |r.value| ==> r.value[m] != '/')
      && (|url[IndexOf(url, InMarker) + |InMarker|..]| == |r.value|
          || url[IndexOf(url, InMarker) + |InMarker| + |r.value|] == '/')
  {
    var parts := Split(url, InMarker);
    SplitCount(url, InMarker);
    if |parts| < 2 then None
    else
      var rest := url[IndexOf(url, InMarker) + |InMarker|..];
      assert parts[1] == Split(rest, InMarker)[0];
      SegmentOf(rest);
      Some(Split(parts[1], "/")[0])
  }

  /** In `scheme + "//" + host + tail`, no `/in/` starts before `tail` when `scheme` and `host` have no '/' and `host` does not start with 'i'. */
  lemma NoMarkerBefore(scheme: string, host: string, tail: string)
    requires '/' !in scheme && '/' !in host
    requires |host| > 0 && host[0] != 'i'
    ensures forall j: nat :: j < |scheme| + 2 + |host| ==> !OccursAt(scheme + "//" + host + tail, InMarker, j)
  {
    var url := scheme + "//" + host + tail;
    forall j: nat | j < |scheme| + 2 + |host| && j + 4 <= |url|
      ensures !OccursAt(url, InMarker, j)
    {
      assert url[j..j + 4][0] == url[j] && url[j..j + 4][1] == url[j + 1];
      if j < |scheme| {
        assert url[j] == scheme[j];
        assert scheme[j] in scheme;
      } else if j == |scheme| {
        assert url[j + 1] == '/';
      } else if j == |scheme| + 1 {
        assert url[j + 1] == host[0];
      } else {
        assert url[j] == host[j - |scheme| - 2];
        assert host[j - |scheme| - 2] in host;
      }
    }
  }

  /** The URL the file checks: valid, with username `johndoe`. */
  lemma JohnDoe()
    ensures ValidUrl("https:" + "//" + "www." + "linkedin.com" + "/in/" + "johndoe")
    ensures Username("https:" + "//" + "www." + "linkedin.com" + "/in/" + "johndoe") == Some("johndoe")
  {
    var scheme, host := "https:", "www." + "linkedin.com";
    var tail := InMarker + "johndoe";
    var url := scheme + "//" + host + tail;
    assert url == "https:" + "//" + "www." + "linkedin.com" + "/in/" + "johndoe";
    assert url[12..28] == InPath;
    assert OccursAt(url, InPath, 12);
    assert url[24..28] == InMarker;
    assert OccursAt(url, InMarker, 24);
    NoMarkerBefore(scheme, host, tail);
    var i := IndexOf(url, InMarker);
    assert i != -1;
    assert i == 24;
    assert Username(url).Some?;
    var v, rest := Username(url).value, url[28..];
    assert rest == "johndoe";
    assert '/' !in rest;
    assert |v| == |rest|;
    assert v == rest[..|v|] == rest;
  }
}
