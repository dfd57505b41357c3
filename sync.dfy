/** The local mirror of the decensooru data set and what
    `find_censored_md5ext` does with it (pydecensooru/main.py:76-108): the
    once-a-day pull decision, then the scan of the batch files. `decensor`
    and `decensor_iter` run through it, since each lookup may refresh the
    mirror first. */
module Sync {
  import opened Wrappers
  import opened PyText
  import opened Lookup
  import Posts

  /** The two repository operations, as abstract actions. */
  datatype GitAction = Clone | Pull

  /** `f"{year}{month}{day}"`: no zero padding. */
  function DateToken(year: nat, month: nat, day: nat): string
  {
    NatToString(year) + NatToString(month) + NatToString(day)
  }

  /** Without padding, 11 January and 1 November of a year get the same
      token: a pull made on one of those days counts for the other. */
  lemma DateTokenCollision(year: nat)
    ensures DateToken(year, 1, 11) == DateToken(year, 11, 1)
    ensures (1, 11) != (11, 1)
  {
    assert NatToString(1) == "1";
    assert NatToString(11) == NatToString(1) + [DigitChar(1)] == "11";
  }

  /** A token is all digits, so writing it and reading it back with
      `strip()` gives it unchanged; and it is never empty, so a missing
      date file never counts as up to date. */
  lemma DateTokenReadBack(year: nat, month: nat, day: nat)
    ensures Strip(DateToken(year, month, day)) == DateToken(year, month, day)
    ensures DateToken(year, month, day) != ""
  {
    var t := DateToken(year, month, day);
    NatToStringShape(year);
    NatToStringShape(month);
    NatToStringShape(day);
    assert t[0] == NatToString(year)[0];
    var d := NatToString(day);
    assert t[|t| - 1] == d[|d| - 1];
  }

  /** `LAST_PULL_DATE_FILE.read_text().strip()`, or "" when the file is
      missing. */
  function StoredToken(dateFile: Option<string>): string
  {
    match dateFile
    case None => ""
    case Some(text) => Strip(text)
  }

  /** The mirror on disk: whether the repository directory exists, the
      contents of the last-pull-date file (None when it is missing), the
      batch files in directory-listing order, and the repository actions
      performed so far. */
  class Mirror {
    var repoExists: bool
    var dateFile: Option<string>
    var batches: seq<seq<string>>
    var actions: seq<GitAction>

    constructor (repoExists: bool, dateFile: Option<string>, batches: seq<seq<string>>)
      ensures this.repoExists == repoExists && this.dateFile == dateFile
      ensures this.batches == batches && actions == []
    {
      this.repoExists := repoExists;
      this.dateFile := dateFile;
      this.batches := batches;
      actions := [];
    }

    /** The repository is there and was pulled on the given day. */
    predicate Fresh(year: nat, month: nat, day: nat)
      reads this
    {
      repoExists && StoredToken(dateFile) == DateToken(year, month, day)
    }

    /** What one refresh for the given day did: nothing when the mirror was
        already fresh; otherwise one clone (no repository) or one pull,
        leaving the remote batches on disk and the day's token in the date
        file. Either way the mirror is fresh afterwards. */
    twostate predicate RefreshedFrom(year: nat, month: nat, day: nat, remote: seq<seq<string>>)
      reads this
    {
      && Fresh(year, month, day)
      && (old(Fresh(year, month, day)) ==>
            dateFile == old(dateFile) && batches == old(batches) && actions == old(actions))
      && (!old(Fresh(year, month, day)) ==>
            && dateFile == Some(DateToken(year, month, day))
            && batches == remote
            && actions == old(actions) + [if old(repoExists) then Pull else Clone])
    }

    /** `git.pull`: the batches become those of the remote. */
    method GitPull(remote: seq<seq<string>>)
      modifies this`batches, this`actions
      ensures batches == remote && actions == old(actions) + [Pull]
    {
      batches := remote;
      actions := actions + [Pull];
    }

    /** `git.clone`: the repository now exists, with the remote batches. */
    method GitClone(remote: seq<seq<string>>)
      modifies this`repoExists, this`batches, this`actions
      ensures repoExists && batches == remote && actions == old(actions) + [Clone]
    {
      repoExists := true;
      batches := remote;
      actions := actions + [Clone];
    }

    /** main.py:80-95: pull when the stored token is not today's, clone when
        there is no repository, and record today's token after either. */
    method Refresh(year: nat, month: nat, day: nat, remote: seq<seq<string>>)
      modifies this
      ensures RefreshedFrom(year, month, day, remote)
    {
      DateTokenReadBack(year, month, day);
      if repoExists {
        var lastPullDate := StoredToken(dateFile);
        var date := DateToken(year, month, day);
        if lastPullDate != date {
          GitPull(remote);
          dateFile := Some(date);
        }
      } else {
        GitClone(remote);
        dateFile := Some(DateToken(year, month, day));
      }
    }

    /** main.py:98-108: the nested loops over batch files and their lines,
        returning at the first line whose id text is `key`, raising at a
        line without exactly one colon, and `None` when nothing matches. */
    method ScanBatches(key: string) returns (r: Result<Option<seq<string>>>)
      ensures r == Find(batches, key)
    {
      var b := 0;
      while b < |batches|
        invariant 0 <= b <= |batches|
        invariant Find(batches, key) == Scan(Flatten(batches[b..]), key)
      {
        var lines := batches[b];
        var rest := Flatten(batches[b + 1..]);
        FlattenFrom(batches, b);
        var i := 0;
        while i < |lines|
          invariant 0 <= i <= |lines|
          invariant Find(batches, key) == Scan(lines[i..] + rest, key)
        {
          ScanStep(lines, i, rest, key);
          var parsed := ParseLine(lines[i]);
          if parsed.Err? {
            return Err(parsed.error);
          }
          var (anId, itsMd5Ext) := parsed.value;
          if key == anId {
            return Ok(Some(Split(RStrip(itsMd5Ext), '.')));
          }
          i := i + 1;
        }
        assert lines[i..] + rest == rest;
        b := b + 1;
      }
      return Ok(None);
    }

    /** `find_censored_md5ext(post_id)`: refresh, then scan for `str(post_id)`. */
    method FindCensoredMd5Ext(postId: Posts.Value, year: nat, month: nat, day: nat, remote: seq<seq<string>>)
      returns (r: Result<Option<seq<string>>>)
      modifies this
      ensures RefreshedFrom(year, month, day, remote)
      ensures r == Find(batches, Posts.IdText(postId))
    {
      Refresh(year, month, day, remote);
      r := ScanBatches(Posts.IdText(postId));
    }

    /** `fill_missing_info(info, subdomain)`: reading `info["id"]` fails
        before anything else happens; otherwise the lookup refreshes the
        mirror and its outcome is applied to the post. */
    method FillMissingInfo(info: Posts.Post, subdomain: string, year: nat, month: nat, day: nat,
                           remote: seq<seq<string>>) returns (r: Result<Posts.Post>)
      modifies this
      ensures r == Posts.FillMissingInfo(info, subdomain, batches)
      ensures "id" in info ==> RefreshedFrom(year, month, day, remote)
      ensures "id" !in info ==> unchanged(this)
    {
      if "id" !in info {
        return Err(KeyError("id"));
      }
      var found := FindCensoredMd5Ext(info["id"], year, month, day, remote);
      r := Posts.ApplyLookup(info, subdomain, found);
    }

    /** `decensor(post_info, subdomain)`: a post that has an MD5 is returned
        without touching the mirror. */
    method Decensor(info: Posts.Post, subdomain: string, year: nat, month: nat, day: nat,
                    remote: seq<seq<string>>) returns (r: Result<Posts.Post>)
      modifies this
      ensures r == Posts.Decensor(info, subdomain, batches)
      ensures "md5" !in info && "id" in info ==> RefreshedFrom(year, month, day, remote)
      ensures "md5" in info || "id" !in info ==> unchanged(this)
    {
      if "md5" in info {
        return Ok(info);
      }
      r := FillMissingInfo(info, subdomain, year, month, day, remote);
    }

    /** `decensor_iter(posts_info, subdomain)`, consumed to the end: the
        posts decensored in order, one result per post, against the batches
        as the first lookup left them; an exception ends the iteration after
        the posts before it were produced. The mirror is refreshed for the
        day exactly when one of the posts handled needed a lookup, and is
        otherwise left untouched; at most one git action happens, whatever
        the number of posts. */
    method DecensorIter(posts: seq<Posts.Post>, subdomain: string, year: nat, month: nat, day: nat,
                        remote: seq<seq<string>>) returns (yielded: seq<Posts.Post>, failure: Option<Error>)
      modifies this
      ensures |yielded| <= |posts|
      ensures Yields(posts, yielded, subdomain, batches)
      ensures failure.None? ==> |yielded| == |posts|
      ensures failure.Some? ==>
        |yielded| < |posts| && Posts.Decensor(posts[|yielded|], subdomain, batches) == Err(failure.value)
      ensures AnyLookup(posts, |yielded| + (if failure.Some? then 1 else 0)) ==>
        RefreshedFrom(year, month, day, remote)
      ensures !AnyLookup(posts, |yielded| + (if failure.Some? then 1 else 0)) ==> unchanged(this)
      ensures |actions| <= |old(actions)| + 1
      ensures old(Fresh(year, month, day)) ==> batches == old(batches) && actions == old(actions)
    {
      yielded, failure := [], None;
      // Whether a lookup has run yet; before it, every post had an MD5.
      ghost var looked := false;
      var i := 0;
      while i < |posts|
        invariant i == |yielded| <= |posts|
        invariant Yields(posts, yielded, subdomain, batches)
        invariant looked == AnyLookup(posts, i)
        invariant !looked ==> (forall j :: 0 <= j < i ==> "md5" in posts[j])
        invariant !looked ==> unchanged(this)
        invariant looked ==> RefreshedFrom(year, month, day, remote)
      {
        ghost var before := batches;
        var r := Decensor(posts[i], subdomain, year, month, day, remote);
        if batches != before {
          // Only the first lookup changes the batches, and every post before
          // it had an MD5, so what it produced does not depend on them.
          UncensoredYields(posts, yielded, subdomain, before, batches);
        }
        AnyLookupStep(posts, i);
        looked := looked || LooksUp(posts[i]);
        if r.Err? {
          failure := Some(r.error);
          return;
        }
        YieldsOneMore(posts, yielded, subdomain, batches, r.value);
        yielded := yielded + [r.value];
        i := i + 1;
      }
    }
  }

  /** `decensor` looks the post up: it has no MD5 but has an id. */
  predicate LooksUp(post: Posts.Post)
  {
    "md5" !in post && "id" in post
  }

  /** One of the first `n` posts is looked up. */
  ghost predicate AnyLookup(posts: seq<Posts.Post>, n: int)
  {
    exists j :: 0 <= j < n && j < |posts| && LooksUp(posts[j])
  }

  lemma AnyLookupStep(posts: seq<Posts.Post>, i: int)
    requires 0 <= i < |posts|
    ensures AnyLookup(posts, i + 1) <==> AnyLookup(posts, i) || LooksUp(posts[i])
  {
    if LooksUp(posts[i]) {
      assert 0 <= i < i + 1 && LooksUp(posts[i]);
    }
  }

  /** The lines from batch `b` on are batch `b` followed by the rest. */
  lemma FlattenFrom(batches: seq<seq<string>>, b: int)
    requires 0 <= b < |batches|
    ensures Flatten(batches[b..]) == batches[b] + Flatten(batches[b + 1..])
  {
    assert batches[b..][1..] == batches[b + 1..];
  }

  /** One step of the scan over the lines from `i` on, then `rest`. */
  lemma ScanStep(lines: seq<string>, i: int, rest: seq<string>, key: string)
    requires 0 <= i < |lines|
    ensures Scan(lines[i..] + rest, key) ==
      match ParseLine(lines[i])
      case Err(e) => Err(e)
      case Ok((id, tail)) => if id == key then Ok(Some(Payload(tail))) else Scan(lines[i + 1..] + rest, key)
  {
    assert lines[i..] + rest == [lines[i]] + (lines[i + 1..] + rest);
  }

  /** `yielded` is what `decensor` gives for the first posts, in order. */
  ghost predicate Yields(posts: seq<Posts.Post>, yielded: seq<Posts.Post>, subdomain: string,
                         batches: seq<seq<string>>)
  {
    && |yielded| <= |posts|
    && forall j :: 0 <= j < |yielded| ==> Posts.Decensor(posts[j], subdomain, batches) == Ok(yielded[j])
  }

  lemma YieldsOneMore(posts: seq<Posts.Post>, yielded: seq<Posts.Post>, subdomain: string,
                      batches: seq<seq<string>>, next: Posts.Post)
    requires Yields(posts, yielded, subdomain, batches) && |yielded| < |posts|
    requires Posts.Decensor(posts[|yielded|], subdomain, batches) == Ok(next)
    ensures Yields(posts, yielded + [next], subdomain, batches)
  {
  }

  /** Posts that already have an MD5 come out the same whatever the batches. */
  lemma UncensoredYields(posts: seq<Posts.Post>, yielded: seq<Posts.Post>, subdomain: string,
                         before: seq<seq<string>>, after: seq<seq<string>>)
    requires Yields(posts, yielded, subdomain, before)
    requires forall j :: 0 <= j < |yielded| ==> "md5" in posts[j]
    ensures Yields(posts, yielded, subdomain, after)
  {
  }
}
