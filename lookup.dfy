/** The record format of the batch files and the first-match scan that
    `find_censored_md5ext` runs over them (pydecensooru/main.py:97-108).
    A batch is the sequence of lines Python yields when iterating over the
    open file, each with its line terminator; the batch directory is the
    sequence of batches in the order the directory listing yields them. */
module Lookup {
  import opened Wrappers
  import opened PyText

  /** `an_id, its_md5_ext = line.split(":")`: a line with exactly one colon
      gives the text before and after it; any other line raises the
      unpack error. */
  function ParseLine(line: string): (r: Result<(string, string)>)
    ensures r.Ok? <==> Count(line, ':') == 1
    ensures r.Ok? ==> line == r.value.0 + [':'] + r.value.1
    ensures r.Ok? ==> ':' !in r.value.0 && ':' !in r.value.1
    ensures r.Err? ==> r.error == UnpackError(2, Count(line, ':') + 1)
  {
    var parts := Split(line, ':');
    if |parts| != 2 then Err(UnpackError(2, |parts|))
    else
      assert Join(parts, ':') == parts[0] + [':'] + parts[1];
      Ok((parts[0], parts[1]))
  }

  /** `its_md5_ext.rstrip().split(".")`: what a hit returns. */
  function Payload(rest: string): seq<string>
  {
    Split(RStrip(rest), '.')
  }

  /** The line parses and belongs to another post. */
  predicate Passes(line: string, key: string)
  {
    ParseLine(line).Ok? && ParseLine(line).value.0 != key
  }

  /** The line parses and its id text is `key`. */
  predicate Hits(line: string, key: string)
  {
    ParseLine(line).Ok? && ParseLine(line).value.0 == key
  }

  /** Line `i` is the first hit: every earlier line parses and misses. */
  predicate HitAt(lines: seq<string>, key: string, i: int)
  {
    && 0 <= i < |lines|
    && (forall j :: 0 <= j < i ==> Passes(lines[j], key))
    && Hits(lines[i], key)
  }

  /** Line `i` is the first that does not parse, and no earlier line hits. */
  predicate MalformedAt(lines: seq<string>, key: string, i: int)
  {
    && 0 <= i < |lines|
    && (forall j :: 0 <= j < i ==> Passes(lines[j], key))
    && ParseLine(lines[i]).Err?
  }

  /** The scan of one stream of lines: stop at the first line that does not
      parse (the exception) or whose id text equals `key` (the early return);
      `None` when the lines run out. */
  function Scan(lines: seq<string>, key: string): Result<Option<seq<string>>>
  {
    if lines == [] then Ok(None)
    else
      match ParseLine(lines[0])
      case Err(e) => Err(e)
      case Ok((id, rest)) =>
        if id == key then Ok(Some(Payload(rest))) else Scan(lines[1..], key)
  }

  /** All lines of all batches, batch after batch. */
  function Flatten(batches: seq<seq<string>>): seq<string>
  {
    if batches == [] then [] else batches[0] + Flatten(batches[1..])
  }

  /** What the nested loops over batches and lines compute for `key`. */
  function Find(batches: seq<seq<string>>, key: string): Result<Option<seq<string>>>
  {
    Scan(Flatten(batches), key)
  }

  /** The first hit decides the result, whatever follows it. */
  lemma {:induction false} ScanFirstHit(lines: seq<string>, key: string, i: int)
    requires HitAt(lines, key, i)
    ensures Scan(lines, key) == Ok(Some(Payload(ParseLine(lines[i]).value.1)))
  {
    if i > 0 {
      assert Passes(lines[0], key);
      assert HitAt(lines[1..], key, i - 1) by {
        forall j | 0 <= j < i - 1 ensures Passes(lines[1..][j], key) {
          assert lines[1..][j] == lines[j + 1];
        }
      }
      ScanFirstHit(lines[1..], key, i - 1);
    }
  }

  /** A line that does not parse before any hit makes the scan fail with
      that line's error. */
  lemma {:induction false} ScanFirstMalformed(lines: seq<string>, key: string, i: int)
    requires MalformedAt(lines, key, i)
    ensures Scan(lines, key) == Err(ParseLine(lines[i]).error)
  {
    if i > 0 {
      assert Passes(lines[0], key);
      assert MalformedAt(lines[1..], key, i - 1) by {
        forall j | 0 <= j < i - 1 ensures Passes(lines[1..][j], key) {
          assert lines[1..][j] == lines[j + 1];
        }
      }
      ScanFirstMalformed(lines[1..], key, i - 1);
    }
  }

  /** "Not found" exactly when every line parses and none has the id. */
  lemma {:induction false} ScanNotFound(lines: seq<string>, key: string)
    ensures Scan(lines, key) == Ok(None) <==> forall j :: 0 <= j < |lines| ==> Passes(lines[j], key)
  {
    if lines != [] && Passes(lines[0], key) {
      var tail := lines[1..];
      ScanNotFound(tail, key);
      if forall j :: 0 <= j < |tail| ==> Passes(tail[j], key) {
        forall j | 0 <= j < |lines| ensures Passes(lines[j], key) {
          if j > 0 { assert lines[j] == tail[j - 1]; }
        }
      }
      if forall j :: 0 <= j < |lines| ==> Passes(lines[j], key) {
        forall j | 0 <= j < |tail| ensures Passes(tail[j], key) {
          assert tail[j] == lines[j + 1];
        }
      }
    }
  }

  /** A found result comes from the first hit; a failure from the first
      malformed line before any hit. */
  lemma {:induction false} ScanOutcome(lines: seq<string>, key: string)
    ensures Scan(lines, key).Ok? && Scan(lines, key).value.Some? ==>
      exists i :: HitAt(lines, key, i) && Scan(lines, key).value.value == Payload(ParseLine(lines[i]).value.1)
    ensures Scan(lines, key).Err? ==>
      exists i :: MalformedAt(lines, key, i) && Scan(lines, key).error == ParseLine(lines[i]).error
  {
    if lines != [] && Passes(lines[0], key) {
      var tail := lines[1..];
      ScanOutcome(tail, key);
      forall i | HitAt(tail, key, i) ensures HitAt(lines, key, i + 1) {
        forall j | 0 <= j < i + 1 ensures Passes(lines[j], key) {
          if j > 0 { assert lines[j] == tail[j - 1]; }
        }
      }
      forall i | MalformedAt(tail, key, i) ensures MalformedAt(lines, key, i + 1) {
        forall j | 0 <= j < i + 1 ensures Passes(lines[j], key) {
          if j > 0 { assert lines[j] == tail[j - 1]; }
        }
      }
      if Scan(lines, key).Ok? && Scan(lines, key).value.Some? {
        var i :| HitAt(tail, key, i) && Scan(tail, key).value.value == Payload(ParseLine(tail[i]).value.1);
        assert HitAt(lines, key, i + 1) && lines[i + 1] == tail[i];
      }
      if Scan(lines, key).Err? {
        var i :| MalformedAt(tail, key, i) && Scan(tail, key).error == ParseLine(tail[i]).error;
        assert MalformedAt(lines, key, i + 1) && lines[i + 1] == tail[i];
      }
    } else if lines != [] {
      assert Hits(lines[0], key) || ParseLine(lines[0]).Err?;
      if Hits(lines[0], key) {
        assert HitAt(lines, key, 0);
      } else {
        assert MalformedAt(lines, key, 0);
      }
    }
  }

  /** No line after the first hit is looked at: replacing everything after it
      leaves the result unchanged. */
  lemma StopsAtFirstHit(lines: seq<string>, key: string, i: int, other: seq<string>)
    requires HitAt(lines, key, i)
    ensures Scan(lines[..i + 1] + other, key) == Scan(lines, key)
  {
    var cut := lines[..i + 1] + other;
    assert forall j :: 0 <= j <= i ==> cut[j] == lines[j];
    assert HitAt(cut, key, i);
    ScanFirstHit(cut, key, i);
    ScanFirstHit(lines, key, i);
  }

  /** A record line that parses and whose text after the colon, stripped of
      trailing white space, has exactly one dot. */
  predicate WellFormedRecord(line: string)
  {
    ParseLine(line).Ok? && |Payload(ParseLine(line).value.1)| == 2
  }

  /** Over well-formed records the scan never raises, and a hit is an
      (MD5, extension) pair. */
  lemma {:induction false} ScanWellFormed(lines: seq<string>, key: string)
    requires forall j :: 0 <= j < |lines| ==> WellFormedRecord(lines[j])
    ensures Scan(lines, key).Ok?
    ensures Scan(lines, key).value.Some? ==> |Scan(lines, key).value.value| == 2
  {
    if lines != [] {
      assert WellFormedRecord(lines[0]);
      if ParseLine(lines[0]).value.0 != key {
        assert forall j :: 0 <= j < |lines[1..]| ==> lines[1..][j] == lines[j + 1];
        ScanWellFormed(lines[1..], key);
      }
    }
  }

  /** Comparing id texts is comparing ids: for a record written as
      `str(n) + ":" + rest`, the scan for `str(id)` hits it exactly when
      `n == id`. */
  lemma IdTextMatch(n: int, rest: string, id: int)
    requires ':' !in rest
    ensures Hits(IntToString(n) + [':'] + rest, IntToString(id)) <==> n == id
  {
    var idText := IntToString(n);
    assert ':' !in idText by {
      NatToStringShape(if n >= 0 then n else -n);
      if n >= 0 {
        assert idText == NatToString(n);
      } else {
        assert idText == "-" + NatToString(-n);
        assert idText[1..] == NatToString(-n);
      }
    }
    SplitJoin([idText, rest], ':');
    assert Join([idText, rest], ':') == idText + [':'] + rest;
    IntToStringInjective(n, id);
  }
}
