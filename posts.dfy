/** Post info dicts from the Danbooru API and what `decensor` and
    `fill_missing_info` make of them (pydecensooru/main.py:29-66), for a
    given content of the batch directory. */
module Posts {
  import opened Wrappers
  import opened PyText
  import opened Lookup
  import opened Urls

  /** A value in a post dict: an `int`, a `str`, or a value of another type
      that cannot be compared with an `int` (`None`, a list, ...), carried
      as the text `str()` gives for it. */
  datatype Value = Int(i: int) | Text(s: string) | Other(text: string)

  type Post = map<string, Value>

  /** The keys `fill_missing_info` adds or overwrites. */
  const AddedKeys: set<string> := {"file_ext", "md5", "file_url", "large_file_url", "preview_file_url"}

  /** `str(post_id)`: the text the batch lines are compared with. */
  function IdText(v: Value): string
  {
    match v
    case Int(i) => IntToString(i)
    case Text(s) => s
    case Other(t) => t
  }

  /** The five new entries for a post whose MD5, extension and URLs are known. */
  function Entries(md5: string, ext: string, links: Links): (m: map<string, Value>)
    ensures m.Keys == AddedKeys
  {
    map["file_ext" := Text(ext), "md5" := Text(md5), "file_url" := Text(links.file),
        "large_file_url" := Text(links.large), "preview_file_url" := Text(links.preview)]
  }

  /** Each of the five keys holds its own value. */
  lemma EntriesAt(md5: string, ext: string, links: Links)
    ensures var m := Entries(md5, ext, links);
      && m["file_ext"] == Text(ext) && m["md5"] == Text(md5)
      && m["file_url"] == Text(links.file) && m["large_file_url"] == Text(links.large)
      && m["preview_file_url"] == Text(links.preview)
  {
  }

  /** The five new entries for a post with the given id and width. */
  function NewEntries(id: int, width: int, md5: string, ext: string, subdomain: string): (m: map<string, Value>)
    ensures m.Keys == AddedKeys
  {
    Entries(md5, ext, BuildUrls(id, width, md5, ext, subdomain))
  }

  /** main.py:43-66, once the MD5 and extension are known: comparing `id`
      and `image_width` with integers needs both to be present and to be
      integers; the result is the input dict with the five entries added,
      every other entry as it was. */
  function Complete(info: Post, subdomain: string, md5: string, ext: string): (r: Result<Post>)
    requires "id" in info
    ensures r.Ok? <==> info["id"].Int? && "image_width" in info && info["image_width"].Int?
    ensures r.Ok? ==> r.value.Keys == info.Keys + AddedKeys
    ensures r.Ok? ==> forall k :: k in info && k !in AddedKeys ==> r.value[k] == info[k]
    ensures r.Ok? ==> r.value["md5"] == Text(md5) && r.value["file_ext"] == Text(ext)
    ensures r.Err? && info["id"].Int? && "image_width" !in info ==> r.error == KeyError("image_width")
  {
    if !info["id"].Int? then Err(TypeError)
    else if "image_width" !in info then Err(KeyError("image_width"))
    else if !info["image_width"].Int? then Err(TypeError)
    else Ok(info + NewEntries(info["id"].i, info["image_width"].i, md5, ext, subdomain))
  }

  /** main.py:38-66 given what the lookup produced: its exception escapes
      (only a `TypeError` is caught, and that only from unpacking `None`),
      "not found" gives back the input, and a hit must split into exactly
      an MD5 and an extension. */
  function ApplyLookup(info: Post, subdomain: string, found: Result<Option<seq<string>>>): Result<Post>
    requires "id" in info
  {
    match found
    case Err(e) => Err(e)
    case Ok(None) => Ok(info)
    case Ok(Some(parts)) =>
      if |parts| != 2 then Err(UnpackError(2, |parts|))
      else Complete(info, subdomain, parts[0], parts[1])
  }

  /** `fill_missing_info(info, subdomain)` against the batch directory
      `batches` (as it is after the refresh). */
  function FillMissingInfo(info: Post, subdomain: string, batches: seq<seq<string>>): Result<Post>
  {
    if "id" !in info then Err(KeyError("id"))
    else ApplyLookup(info, subdomain, Find(batches, IdText(info["id"])))
  }

  /** `decensor(post_info, subdomain)`: a post that already has an MD5 is
      returned as it is; otherwise it is filled in. */
  function Decensor(info: Post, subdomain: string, batches: seq<seq<string>>): (r: Result<Post>)
    ensures "md5" in info ==> r == Ok(info)
    ensures r.Ok? && r.value != info ==>
      && "md5" !in info
      && r.value.Keys == info.Keys + AddedKeys
      && forall k :: k in info && k !in AddedKeys ==> r.value[k] == info[k]
  {
    if "md5" in info then Ok(info) else FillMissingInfo(info, subdomain, batches)
  }

  /** A post whose id no batch line carries (every line parsing) comes back
      unchanged. */
  lemma NotFoundUnchanged(info: Post, subdomain: string, batches: seq<seq<string>>)
    requires "id" in info
    requires forall j :: 0 <= j < |Flatten(batches)| ==> Passes(Flatten(batches)[j], IdText(info["id"]))
    ensures Decensor(info, subdomain, batches) == Ok(info)
  {
    ScanNotFound(Flatten(batches), IdText(info["id"]));
  }

  /** Decensoring twice is decensoring once. */
  lemma DecensorIdempotent(info: Post, subdomain: string, batches: seq<seq<string>>)
    requires Decensor(info, subdomain, batches).Ok?
    ensures var once := Decensor(info, subdomain, batches).value;
      Decensor(once, subdomain, batches) == Ok(once)
  {
    var once := Decensor(info, subdomain, batches).value;
    if once != info {
      assert "md5" in AddedKeys;
    }
  }

  /** The new entries for a hit: the file URL ends in the extension, the
      preview in "jpg", and the large URL is the file URL exactly when the
      image is narrower than 850 pixels. */
  lemma NewEntriesMeaning(id: int, width: int, md5: string, ext: string, subdomain: string)
    requires '.' !in ext
    ensures var m := NewEntries(id, width, md5, ext, subdomain);
      && m["md5"] == Text(md5) && m["file_ext"] == Text(ext)
      && (m["large_file_url"] == m["file_url"] <==> width < 850)
      && AfterLast(m["file_url"].s, '.') == ext
      && AfterLast(m["preview_file_url"].s, '.') == "jpg"
  {
    EntriesAt(md5, ext, BuildUrls(id, width, md5, ext, subdomain));
    LargeIsFileIffNarrow(id, width, md5, ext, subdomain);
    UrlExtensions(id, width, md5, ext, subdomain);
  }

  /** What a hit yields: the first line carrying the post's id text decides
      the MD5 and extension, and the result is the input with the five
      entries for them added. */
  lemma DecensorHit(info: Post, subdomain: string, batches: seq<seq<string>>, i: int, md5: string, ext: string)
    requires "md5" !in info && "id" in info && info["id"].Int?
    requires "image_width" in info && info["image_width"].Int?
    requires HitAt(Flatten(batches), IdText(info["id"]), i)
    requires Payload(ParseLine(Flatten(batches)[i]).value.1) == [md5, ext]
    ensures '.' !in ext
    ensures Decensor(info, subdomain, batches)
         == Ok(info + NewEntries(info["id"].i, info["image_width"].i, md5, ext, subdomain))
  {
    var lines := Flatten(batches);
    ScanFirstHit(lines, IdText(info["id"]), i);
    var payload := Payload(ParseLine(lines[i]).value.1);
    assert '.' !in payload[1];
    assert Find(batches, IdText(info["id"])) == Ok(Some([md5, ext]));
  }

  /** With every batch line well formed and integer `id` and `image_width`,
      decensoring never raises. */
  lemma DecensorTotal(info: Post, subdomain: string, batches: seq<seq<string>>)
    requires "id" in info && info["id"].Int?
    requires "image_width" in info && info["image_width"].Int?
    requires forall j :: 0 <= j < |Flatten(batches)| ==> WellFormedRecord(Flatten(batches)[j])
    ensures Decensor(info, subdomain, batches).Ok?
  {
    ScanWellFormed(Flatten(batches), IdText(info["id"]));
  }

  /** A malformed line before any line with the post's id makes `decensor`
      raise that line's unpack error instead of returning the input. */
  lemma MalformedLineRaises(info: Post, subdomain: string, batches: seq<seq<string>>, i: int)
    requires "md5" !in info && "id" in info
    requires MalformedAt(Flatten(batches), IdText(info["id"]), i)
    ensures Decensor(info, subdomain, batches) == Err(UnpackError(2, Count(Flatten(batches)[i], ':') + 1))
  {
    ScanFirstMalformed(Flatten(batches), IdText(info["id"]), i);
  }

  /** A hit whose text after the colon does not split into exactly an MD5
      and an extension makes `decensor` raise the unpack error: only a
      `TypeError` is caught, so the input is not returned. */
  lemma BadPayloadRaises(info: Post, subdomain: string, batches: seq<seq<string>>, i: int)
    requires "md5" !in info && "id" in info
    requires HitAt(Flatten(batches), IdText(info["id"]), i)
    requires |Payload(ParseLine(Flatten(batches)[i]).value.1)| != 2
    ensures Decensor(info, subdomain, batches)
         == Err(UnpackError(2, |Payload(ParseLine(Flatten(batches)[i]).value.1)|))
  {
    ScanFirstHit(Flatten(batches), IdText(info["id"]), i);
  }
}
