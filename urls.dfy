/** The URLs `fill_missing_info` writes into a post once its MD5 and file
    extension are known (pydecensooru/main.py:43-66). */
module Urls {
  import opened PyText

  /** Posts above this id are served by the current site. */
  const CurrentSiteAbove := 2_800_000
  /** Older posts above this id are on the second legacy server. */
  const SecondLegacyAbove := 850_000
  /** Images narrower than this have no separate sample. */
  const SampleMinWidth := 850

  datatype Links = Links(file: string, large: string, preview: string)

  /** The extension of the sample file: animations ("zip") have a "webm"
      sample, every other kind a "jpg" one. */
  function SampleExt(ext: string): string
  {
    if ext != "zip" then "jpg" else "webm"
  }

  /** `/{md5[:2]}/{md5[2:4]}/` */
  function Md5Dirs(md5: string): string
  {
    "/" + Slice(md5, 0, 2) + "/" + Slice(md5, 2, 4) + "/"
  }

  /** `url_base`: the current site for recent posts, otherwise one of the
      two legacy servers. */
  function UrlBase(id: int, subdomain: string): string
  {
    if id > CurrentSiteAbove then "https://" + subdomain + ".donmai.us"
    else
      var server := if id > SecondLegacyAbove then "raikou2" else "raikou1";
      "https://" + server + ".donmai.us"
  }

  /** `file_url`: the base followed by `/data/` on the current site, or by
      the two MD5 directory levels on a legacy server. */
  function FileUrl(id: int, md5: string, ext: string, subdomain: string): string
  {
    UrlBase(id, subdomain) + FilePath(id, md5, ext)
  }

  function FilePath(id: int, md5: string, ext: string): string
  {
    var dir := if id > CurrentSiteAbove then "/data/" else Md5Dirs(md5);
    dir + md5 + "." + ext
  }

  /** `sample_url` before the width check */
  function SampleUrl(id: int, md5: string, ext: string, subdomain: string): string
  {
    UrlBase(id, subdomain) + SamplePath(id, md5, ext)
  }

  function SamplePath(id: int, md5: string, ext: string): string
  {
    var dir := if id > CurrentSiteAbove then "/data/sample/" else "/sample" + Md5Dirs(md5);
    dir + "sample-" + md5 + "." + SampleExt(ext)
  }

  /** `preview_file_url` */
  function PreviewUrl(md5: string): string
  {
    "https://raikou4.donmai.us/preview" + Md5Dirs(md5) + md5 + ".jpg"
  }

  /** The three URLs a decensored post gets; narrow images use the file
      itself as their large version. */
  function BuildUrls(id: int, width: int, md5: string, ext: string, subdomain: string): Links
  {
    var fileUrl := FileUrl(id, md5, ext, subdomain);
    var largeUrl := if width < SampleMinWidth then fileUrl else SampleUrl(id, md5, ext, subdomain);
    Links(fileUrl, largeUrl, PreviewUrl(md5))
  }

  /** The server a post's file and sample live on. */
  function Host(id: int, subdomain: string): string
  {
    if id > 2_800_000 then subdomain else if id > 850_000 then "raikou2" else "raikou1"
  }

  /** The text after the last `c` in `s` (all of `s` when there is none). */
  function AfterLast(s: string, c: char): (r: string)
    ensures c !in r
    ensures |r| <= |s| && r == s[|s| - |r|..]
  {
    if s == [] then []
    else if s[|s| - 1] == c then []
    else AfterLast(s[..|s| - 1], c) + [s[|s| - 1]]
  }

  lemma {:induction false} AfterLastOf(u: string, c: char, t: string)
    requires c !in t
    ensures AfterLast(u + [c] + t, c) == t
    decreases |t|
  {
    var s := u + [c] + t;
    if t != [] {
      var t' := t[..|t| - 1];
      var last := t[|t| - 1];
      assert s[..|s| - 1] == u + [c] + t';
      assert s[|s| - 1] == last && last != c;
      AfterLastOf(u, c, t');
      assert AfterLast(s, c) == AfterLast(u + [c] + t', c) + [last];
      assert t == t' + [last];
    } else {
      assert s[|s| - 1] == c;
    }
  }

  lemma FileUrlExtension(id: int, md5: string, ext: string, subdomain: string)
    requires '.' !in ext
    ensures AfterLast(FileUrl(id, md5, ext, subdomain), '.') == ext
  {
    var dir := if id > CurrentSiteAbove then "/data/" else Md5Dirs(md5);
    var base := UrlBase(id, subdomain);
    assert FilePath(id, md5, ext) == (dir + md5) + ['.'] + ext;
    var stem := base + (dir + md5);
    assert base + ((dir + md5) + ['.'] + ext) == stem + ['.'] + ext;
    AfterLastOf(stem, '.', ext);
  }

  lemma SampleUrlExtension(id: int, md5: string, ext: string, subdomain: string)
    ensures AfterLast(SampleUrl(id, md5, ext, subdomain), '.') == SampleExt(ext)
  {
    var dir := if id > CurrentSiteAbove then "/data/sample/" else "/sample" + Md5Dirs(md5);
    var base := UrlBase(id, subdomain);
    var se := SampleExt(ext);
    assert SamplePath(id, md5, ext) == (dir + "sample-" + md5) + ['.'] + se;
    var stem := base + (dir + "sample-" + md5);
    assert base + ((dir + "sample-" + md5) + ['.'] + se) == stem + ['.'] + se;
    AfterLastOf(stem, '.', se);
  }

  lemma PreviewUrlExtension(md5: string)
    ensures AfterLast(PreviewUrl(md5), '.') == "jpg"
  {
    var stem := "https://raikou4.donmai.us/preview" + Md5Dirs(md5) + md5;
    assert PreviewUrl(md5) == stem + ['.'] + "jpg";
    AfterLastOf(stem, '.', "jpg");
  }

  /** The extension of every URL is recoverable: the file URL ends in the
      post's extension, the large URL in the file's or the sample's, the
      preview always in "jpg". */
  lemma UrlExtensions(id: int, width: int, md5: string, ext: string, subdomain: string)
    requires '.' !in ext
    ensures var l := BuildUrls(id, width, md5, ext, subdomain);
      && AfterLast(l.file, '.') == ext
      && AfterLast(l.large, '.') == (if width < 850 then ext else if ext == "zip" then "webm" else "jpg")
      && AfterLast(l.preview, '.') == "jpg"
  {
    FileUrlExtension(id, md5, ext, subdomain);
    SampleUrlExtension(id, md5, ext, subdomain);
    PreviewUrlExtension(md5);
  }

  /** The large URL is the file URL exactly when the image is narrower than
      850 pixels: for wider images the sample URL always differs from the
      file URL. */
  lemma LargeIsFileIffNarrow(id: int, width: int, md5: string, ext: string, subdomain: string)
    requires '.' !in ext
    ensures var l := BuildUrls(id, width, md5, ext, subdomain);
      l.large == l.file <==> width < 850
  {
    var l := BuildUrls(id, width, md5, ext, subdomain);
    UrlExtensions(id, width, md5, ext, subdomain);
    if width >= 850 && ext == SampleExt(ext) {
      // Same extension, but the sample path is 14 characters longer.
      assert |l.large| == |l.file| + 14;
    }
  }

  /** The base is the chosen host on donmai.us. */
  lemma UrlBaseHost(id: int, subdomain: string)
    ensures UrlBase(id, subdomain) == "https://" + Host(id, subdomain) + ".donmai.us"
  {
  }

  /** A path that starts with a slash puts a slash right after the base. */
  lemma SlashAfter(base: string, path: string)
    requires path != [] && path[0] == '/'
    ensures base + "/" <= base + path
  {
    assert base + path == (base + "/") + path[1..];
  }

  /** File and large URL are on the server chosen by the id thresholds: the
      current site above 2,800,000, the second legacy server above 850,000,
      the first legacy server otherwise. */
  lemma UrlHosts(id: int, width: int, md5: string, ext: string, subdomain: string)
    ensures var l := BuildUrls(id, width, md5, ext, subdomain);
      && ("https://" + Host(id, subdomain) + ".donmai.us/") <= l.file
      && ("https://" + Host(id, subdomain) + ".donmai.us/") <= l.large
  {
    var base := UrlBase(id, subdomain);
    UrlBaseHost(id, subdomain);
    assert base + "/" == "https://" + Host(id, subdomain) + ".donmai.us/";
    SlashAfter(base, FilePath(id, md5, ext));
    SlashAfter(base, SamplePath(id, md5, ext));
  }

  /** The file URL path on the current site: `/data/<md5>.<ext>`. */
  lemma FileUrlPathCurrent(id: int, md5: string, ext: string, subdomain: string)
    requires id > 2_800_000
    ensures FileUrl(id, md5, ext, subdomain) == "https://" + subdomain + ".donmai.us" + "/data/" + md5 + "." + ext
  {
    var base := "https://" + subdomain + ".donmai.us";
    assert FilePath(id, md5, ext) == "/data/" + md5 + "." + ext;
    assert base + ("/data/" + md5 + "." + ext) == base + "/data/" + md5 + "." + ext;
  }

  /** The file URL path on a legacy server: two directory levels named by
      the first and the second pair of MD5 characters. */
  lemma FileUrlPathLegacy(id: int, md5: string, ext: string, subdomain: string)
    requires id <= 2_800_000 && |md5| >= 4
    ensures FileUrl(id, md5, ext, subdomain)
      == "https://" + Host(id, subdomain) + ".donmai.us" + "/" + md5[..2] + "/" + md5[2..4] + "/" + md5 + "." + ext
  {
    var base := "https://" + Host(id, subdomain) + ".donmai.us";
    UrlBaseHost(id, subdomain);
    var dirs := "/" + md5[..2] + "/" + md5[2..4] + "/";
    assert Md5Dirs(md5) == dirs;
    assert FilePath(id, md5, ext) == dirs + md5 + "." + ext;
    assert base + (dirs + md5 + "." + ext) == base + dirs + md5 + "." + ext;
  }

  /** For an image at least 850 pixels wide, the large URL on the current
      site is the sample under `/data/sample/`, with the sample extension. */
  lemma LargeUrlPathCurrent(id: int, width: int, md5: string, ext: string, subdomain: string)
    requires id > 2_800_000 && width >= 850
    ensures BuildUrls(id, width, md5, ext, subdomain).large
      == "https://" + subdomain + ".donmai.us" + "/data/sample/sample-" + md5 + "." + SampleExt(ext)
  {
    var base := "https://" + subdomain + ".donmai.us";
    var tail := "sample-" + md5 + "." + SampleExt(ext);
    assert SamplePath(id, md5, ext) == "/data/sample/" + tail;
    assert base + ("/data/sample/" + tail) == base + "/data/sample/sample-" + md5 + "." + SampleExt(ext);
  }

  /** For an image at least 850 pixels wide, the large URL on a legacy server
      is the sample under `/sample/` and the same two MD5 directory levels. */
  lemma LargeUrlPathLegacy(id: int, width: int, md5: string, ext: string, subdomain: string)
    requires id <= 2_800_000 && width >= 850 && |md5| >= 4
    ensures BuildUrls(id, width, md5, ext, subdomain).large
      == "https://" + Host(id, subdomain) + ".donmai.us" + "/sample/" + md5[..2] + "/" + md5[2..4] + "/"
         + "sample-" + md5 + "." + SampleExt(ext)
  {
    UrlBaseHost(id, subdomain);
    assert Md5Dirs(md5) == "/" + md5[..2] + "/" + md5[2..4] + "/";
    LegacySampleText("https://" + Host(id, subdomain) + ".donmai.us", md5[..2], md5[2..4], md5, SampleExt(ext));
  }

  /** The legacy sample path, regrouped as the URL is written. */
  lemma LegacySampleText(base: string, first: string, second: string, md5: string, sampleExt: string)
    ensures base + ("/sample" + ("/" + first + "/" + second + "/") + "sample-" + md5 + "." + sampleExt)
         == base + "/sample/" + first + "/" + second + "/" + "sample-" + md5 + "." + sampleExt
  {
  }

  /** The preview is on the preview server under the same two directory
      levels, and is a "jpg" whatever the post's extension. */
  lemma PreviewUrlPath(md5: string)
    ensures "https://raikou4.donmai.us/preview/" <= PreviewUrl(md5)
    ensures |md5| >= 4 ==>
      PreviewUrl(md5) == "https://raikou4.donmai.us/preview/" + md5[..2] + "/" + md5[2..4] + "/" + md5 + ".jpg"
  {
    var pairs := Slice(md5, 0, 2) + "/" + Slice(md5, 2, 4) + "/";
    assert PreviewUrl(md5) == "https://raikou4.donmai.us/preview/" + (pairs + md5 + ".jpg");
  }
}
