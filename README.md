# pydecensooru, modelled in Dafny

pydecensooru fills in the MD5, extension and download URLs of Danbooru posts
whose API record withholds them ("censored" posts). It looks the post id up in
a local git mirror of the decensooru data set. The mirror is a directory of
batch files with one `id:md5.ext` record per line, pulled at most once per UTC
day. From the MD5 and extension it then builds the file, large (sample) and
preview URLs by the id and width rules of the Danbooru servers.

The model covers the whole of `pydecensooru/main.py` that has logic:

- `wrappers.dfy` (`Wrappers`): `Option`, `Result` and the Python exceptions
  the code can raise (`KeyError`, `TypeError`, and the `ValueError` of a tuple
  unpack, here `UnpackError(expected, got)`), carried as values.
- `pytext.dfy` (`PyText`): the Python `str` operations the code relies on.
  These are `split` with a one-character separator, `rstrip()`/`strip()`,
  clipping slices, and `str()` of an `int`. Each is proved against its
  meaning: split/join round trip, what strip removes, and that decimal text
  round-trips and is injective.
- `lookup.dfy` (`Lookup`): the record format and the first-match scan as
  functions on a `seq<seq<string>>` of batches. Lemmas characterise the
  result: first hit, first malformed line, not found, and nothing read after
  the first hit.
- `urls.dfy` (`Urls`): the URL templates and their properties (host, path,
  extension, large-equals-file).
- `posts.dfy` (`Posts`): the post dict as a `map<string, Value>`, and
  `fill_missing_info` and `decensor` as functions of the post and the batch
  directory.
- `sync.dfy` (`Sync`): the mirror as a class `Mirror`. Its fields are whether
  the repository exists, the date file, the batches and the git actions
  performed. Its methods are the refresh decision, the nested scan loops, and
  `find_censored_md5ext`, `fill_missing_info`, `decensor` and a fully consumed
  `decensor_iter` as stateful methods. Each method is proved equal to the
  functions of `Posts` and `Lookup` on the mirror's state after the refresh.

Behaviour of the code worth knowing, all of which the model keeps:

- The sample file's extension is `"webm"` for a `"zip"` post and `"jpg"` for
  every other extension, whatever the post's own extension is
  (`pydecensooru/main.py:43`).
- A record line is split at every colon and must give exactly two pieces
  (`main.py:103`). The text after the colon, stripped of trailing white
  space, is split at every dot and must also give exactly two pieces
  (`main.py:106`, unpacked at `main.py:39`). Any other count raises the
  `ValueError` of the tuple unpack.
- Only the `TypeError` of unpacking `None` is caught (`main.py:38-41`). Every
  other exception from a lookup escapes `decensor` and ends `decensor_iter`.
- The mirror is a git repository. It is cloned when its directory is missing
  (`main.py:93`), and otherwise pulled whole when the stored date token is
  not today's (`main.py:89-90`).
- The current site is `https://{subdomain}.donmai.us` (`main.py:46`).

## Model

| member | source | states |
|---|---|---|
| PyText.Split | pydecensooru/main.py:103 | `str.split(sep)` gives one piece more than there are separators, no piece contains the separator, and joining the pieces gives the input back |
| PyText.SplitJoin | pydecensooru/main.py:103 | splitting the join of separator-free pieces gives the pieces back |
| PyText.RStrip | pydecensooru/main.py:106 | `rstrip()` keeps a prefix that does not end in white space, and everything it cuts off is white space |
| PyText.StripMeaning | pydecensooru/main.py:82 | `strip()` gives the slice between the leading and the trailing white space, both of which are white space only |
| PyText.Slice | pydecensooru/main.py:52-54 | `s[lo:hi]` is the exact slice when `hi` is within the string, the rest of the string from `lo` when it ends between the bounds, empty when it ends before `lo`, and never longer than `hi - lo` |
| PyText.NatToStringShape | pydecensooru/main.py:87 | the decimal text of a natural number is non-empty digits, with a leading `0` only for zero |
| PyText.NatToStringRoundTrip | pydecensooru/main.py:98 | reading the decimal text back gives the number |
| PyText.IntToStringInjective | pydecensooru/main.py:98 | `str(a) == str(b)` exactly when `a == b` |
| Lookup.ParseLine | pydecensooru/main.py:103 | a line unpacks exactly when it has one colon, into the text before and after it, neither containing a colon, and otherwise raises the unpack error with the count of pieces |
| Lookup.ScanFirstHit | pydecensooru/main.py:100-106 | when every earlier line parses and misses, the first line with the id text decides the result: its stripped remainder split on dots |
| Lookup.ScanFirstMalformed | pydecensooru/main.py:100-105 | a line that does not parse, before any hit, makes the scan raise that line's unpack error |
| Lookup.ScanNotFound | pydecensooru/main.py:100-108 | the scan returns `None` exactly when every line parses and none has the id text |
| Lookup.ScanOutcome | pydecensooru/main.py:100-108 | a found result comes from the first hit, and a failure from the first malformed line before any hit |
| Lookup.StopsAtFirstHit | pydecensooru/main.py:105-106 | no line after the first hit is read: replacing the rest leaves the result unchanged |
| Lookup.ScanWellFormed | pydecensooru/main.py:100-106 | over well-formed records the scan never raises, and a hit is an MD5 and extension pair |
| Lookup.IdTextMatch | pydecensooru/main.py:98-105 | comparing `str(post_id)` with a record's id text matches the record exactly when the ids are equal as integers |
| Urls.FileUrlExtension | pydecensooru/main.py:45-52 | the file URL ends in `.` followed by the post's extension |
| Urls.SampleUrlExtension | pydecensooru/main.py:43-54 | the sample URL ends in `.webm` for `zip` and in `.jpg` for every other extension |
| Urls.PreviewUrlExtension | pydecensooru/main.py:64-65 | the preview URL ends in `.jpg` whatever the extension |
| Urls.UrlExtensions | pydecensooru/main.py:43-65 | the extension after the last dot of each of the three URLs: the post's for the file, the file's or the sample's for the large URL depending on the width, and `jpg` for the preview |
| Urls.LargeIsFileIffNarrow | pydecensooru/main.py:56-57 | the large URL equals the file URL exactly when the image is narrower than 850 pixels |
| Urls.UrlHosts | pydecensooru/main.py:45-54 | the file and large URLs are on the subdomain above id 2,800,000, on `raikou2` above 850,000, and on `raikou1` otherwise |
| Urls.FileUrlPathCurrent | pydecensooru/main.py:45-47 | above id 2,800,000 the file URL is `https://{subdomain}.donmai.us/data/{md5}.{ext}` |
| Urls.FileUrlPathLegacy | pydecensooru/main.py:49-52 | on a legacy server the file URL is `/{md5[:2]}/{md5[2:4]}/{md5}.{ext}` under the chosen host |
| Urls.LargeUrlPathCurrent | pydecensooru/main.py:45-57 | for a wide image above id 2,800,000 the large URL is the sample under `/data/sample/` with the sample extension |
| Urls.LargeUrlPathLegacy | pydecensooru/main.py:49-57 | for a wide image on a legacy server the large URL is the sample under `/sample/{md5[:2]}/{md5[2:4]}/` with the sample extension |
| Urls.PreviewUrlPath | pydecensooru/main.py:64-65 | the preview is `https://raikou4.donmai.us/preview/{md5[:2]}/{md5[2:4]}/{md5}.jpg` |
| Posts.NewEntries | pydecensooru/main.py:59-66 | exactly the five keys `file_ext`, `md5`, `file_url`, `large_file_url` and `preview_file_url` are written |
| Posts.Complete | pydecensooru/main.py:43-66 | the fill succeeds exactly when `id` and `image_width` are integers, a missing width is a `KeyError`, and the result has the input's keys plus the five, every other entry unchanged, with the found MD5 and extension |
| Posts.Decensor | pydecensooru/main.py:29-32 | a post with `md5` is returned as it is, and any other successful result is either the input or a post that had no `md5`, now with the input's keys plus the five, every other entry keeping its value |
| Posts.NotFoundUnchanged | pydecensooru/main.py:38-41 | a post whose id no line carries, every line parsing, comes back unchanged |
| Posts.DecensorIdempotent | pydecensooru/main.py:29-32 | decensoring a decensored post gives it back unchanged |
| Posts.NewEntriesMeaning | pydecensooru/main.py:43-66 | the new entries hold the MD5 and extension, large equals file exactly for narrow images, and the file and preview URLs end in the extension and `jpg` |
| Posts.DecensorHit | pydecensooru/main.py:36-66 | at the first hit with an MD5 and a dot-free extension, the result is the input with the five entries for them |
| Posts.DecensorTotal | pydecensooru/main.py:36-66 | with well-formed records and integer `id` and `image_width`, decensoring never raises |
| Posts.MalformedLineRaises | pydecensooru/main.py:38-41 | a malformed line before any hit makes `decensor` raise its unpack error instead of returning the input |
| Posts.BadPayloadRaises | pydecensooru/main.py:38-41 | a hit whose remainder does not split into exactly two parts makes `decensor` raise the unpack error |
| Sync.DateTokenCollision | pydecensooru/main.py:86-87 | without padding, 11 January and 1 November of a year give the same token |
| Sync.DateTokenReadBack | pydecensooru/main.py:82-91 | a written token reads back unchanged through `strip()`, and is never the empty token of a missing file |
| Sync.Mirror.GitPull | pydecensooru/main.py:90 | the batches become the remote's and one pull is recorded |
| Sync.Mirror.GitClone | pydecensooru/main.py:93 | the repository exists with the remote's batches and one clone is recorded |
| Sync.Mirror.Refresh | pydecensooru/main.py:80-95 | afterwards the mirror is fresh for the day. Nothing changes when it already was. Otherwise exactly one pull (repository present) or clone (absent) is recorded, the batches are the remote's, and the date file holds the day's token |
| Sync.Mirror.ScanBatches | pydecensooru/main.py:97-108 | the nested loops return exactly the first-match scan over all lines of all batches in order |
| Sync.Mirror.FindCensoredMd5Ext | pydecensooru/main.py:76-108 | the mirror is refreshed for the day, then the result is the scan for `str(post_id)` over the refreshed batches |
| Sync.Mirror.FillMissingInfo | pydecensooru/main.py:36-41 | the result is the fill on the refreshed batches, and a post without `id` fails before the mirror is touched |
| Sync.Mirror.Decensor | pydecensooru/main.py:29-32 | the result is `decensor` on the refreshed batches, and a post with `md5` (or without `id`) leaves the mirror untouched |
| Sync.Mirror.DecensorIter | pydecensooru/main.py:21-26 | the posts yielded are `decensor` of each input post, in order, against the final batches. Without an exception there is one per input. An exception stops at the post that raised it. When one of the posts handled needed a lookup, the mirror ends refreshed for the day from its initial state (at most one pull or clone, none when it was fresh); otherwise it is untouched |

## Left out

- `git.pull` and `git.clone` (dulwich) and `REPO_URL` are foreign network
  calls. They become abstract actions that replace the batches with a
  `remote` parameter, and their failures are not modelled.
- `_DummyFile` (`main.py:69-73`) is a writer that discards what it is given.
  It only silences git's error stream, so the model has nothing for it.
- The default argument `subdomain="danbooru"` of `decensor_iter`, `decensor`
  and `fill_missing_info` is not modelled. Every operation here takes the
  subdomain explicitly; a call without it is the call with `"danbooru"`.
- A post is a `map`, so the key order of the dict that `{**info, **{...}}`
  builds is not modelled. The input's keys keep their order there, and any
  of the five keys not already present come after them.
- The filesystem is not modelled. This covers the `appdirs` paths,
  `DATA_DIR.mkdir`, opening batch files, and the order `iterdir` lists them
  in. The batch directory is a sequence of batches in listing order, each a
  sequence of lines as file iteration yields them. Read errors other than a
  missing date file, and non-file entries in the batch directory, are not
  modelled.
- `datetime.utcnow()` is a (year, month, day) parameter. The code reads the
  clock once in whichever branch of the refresh runs, so one date per
  refresh is exact. A date that changes during a `decensor_iter`
  run is not modelled, because every call takes the same date.
- Sync.Mirror.DecensorIter: models the generator consumed to the end, or up
  to the exception it raises. A consumer that stops early, and the laziness
  of the refreshes, are not modelled.
- Posts.Complete: `bool` and `float` ids and widths are not modelled, because
  `Value` has no such case. Python compares them with integers without an
  error, but here every non-`int`, non-`str` value is one that raises
  `TypeError`.
- PyText.IntToStringInjective: CPython's limit on the number of digits
  `str()` converts is not modelled, because integers are unbounded here.
- `pydecensooru/__about__.py` is not part of this model, nor is `setup.py`;
  they hold only package metadata.
