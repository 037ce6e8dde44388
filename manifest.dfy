/**
 * The SKILL.md frontmatter parser of `loadManifest`: the header block
 * between a leading `---` line and the next `\n---`, read line by line as
 * `key: value` pairs into a dictionary, then checked for a name and version.
 */
module Manifest {
  import opened Wrappers
  import opened Text
  import opened Errors

  /** The dictionary `loadManifest` builds: trimmed keys to trimmed values. */
  type Entries = map<string, string>

  const Opener: string := "---\n"

  /** `s` has the closing delimiter `\n---` at position `k`. */
  predicate CloserAt(s: string, k: int)
  {
    0 <= k && k + 4 <= |s| && s[k..k + 4] == "\n---"
  }

  /** The first closing delimiter at or after `from`. */
  function FindCloser(s: string, from: nat): (r: Option<nat>)
    ensures r.None? ==> forall k :: from <= k ==> !CloserAt(s, k)
    ensures r.Some? ==> from <= r.value && CloserAt(s, r.value)
    ensures r.Some? ==> forall k :: from <= k < r.value ==> !CloserAt(s, k)
    decreases |s| - from
  {
    if from + 4 > |s| then None
    else if CloserAt(s, from) then Some(from)
    else FindCloser(s, from + 1)
  }

  /**
   * The capture of `/^---\n([\s\S]*?)\n---/`: the text must open with
   * `---\n`, and the lazy group ends at the FIRST `\n---` after the opener.
   * Only `\n` line ends are recognised.
   */
  function Frontmatter(content: string): (r: Option<string>)
    ensures r.Some? <==> StartsWith(content, Opener) && exists k :: 4 <= k && CloserAt(content, k)
    ensures r.Some? ==> StartsWith(content, Opener) && 4 + |r.value| <= |content|
    ensures r.Some? ==> r.value == content[4..4 + |r.value|] && CloserAt(content, 4 + |r.value|)
    ensures r.Some? ==> forall k :: 4 <= k < 4 + |r.value| ==> !CloserAt(content, k)
  {
    if !StartsWith(content, Opener) then None
    else match FindCloser(content, 4)
      case None => None
      case Some(k) => Some(content[4..k])
  }

  /** A header free of `\n---`, written between the fences, is read back unchanged. */
  lemma FrontmatterOfBlock(header: string, rest: string)
    requires forall k :: !CloserAt(header, k)
    ensures Frontmatter(Opener + header + "\n---" + rest) == Some(header)
  {
    var c := Opener + header + "\n---" + rest;
    var end := 4 + |header|;
    assert c[..4] == Opener;
    assert c[end..end + 4] == "\n---";
    assert c[4..end] == header;
    assert CloserAt(c, end);
    forall k | 4 <= k < end
      ensures !CloserAt(c, k)
    {
      if k + 4 <= end {
        assert c[k..k + 4] == header[k - 4..k];
        assert !CloserAt(header, k - 4);
      } else {
        assert c[k..k + 4][end - k] == c[end] == '\n';
      }
    }
    var r := Frontmatter(c);
    assert r.Some?;
    assert 4 + |r.value| == end;
  }

  /**
   * One header line as the `forEach` callback reads it: split on `:`, the
   * first piece is the key and the re-joined rest the value; the pair is
   * kept only when the raw key is non-empty and a colon exists.
   */
  function ParseLine(line: string): Option<(string, string)>
  {
    var parts := Split(line, ':');
    if parts[0] != "" && |parts| > 1 then Some((Trim(parts[0]), Trim(Join(parts[1..], ':'))))
    else None
  }

  /**
   * The same pairing stated by position: a line without a colon, or whose
   * first colon is its first character, is dropped; otherwise the key is the
   * trimmed text before the first colon and the value the trimmed text
   * after it (later colons stay in the value).
   */
  lemma ParseLineAtFirstColon(line: string)
    ensures IndexOf(line, ':').None? ==> ParseLine(line).None?
    ensures IndexOf(line, ':') == Some(0) ==> ParseLine(line).None?
    ensures forall i :: IndexOf(line, ':') == Some(i) && i > 0 ==>
              ParseLine(line) == Some((Trim(line[..i]), Trim(line[i + 1..])))
  {
    match IndexOf(line, ':')
    case None =>
    case Some(i) =>
      SplitAtFirstColon(line, i);
  }

  /** Splitting at the first colon: the key piece, then pieces that re-join to the rest. */
  lemma SplitAtFirstColon(line: string, i: nat)
    requires IndexOf(line, ':') == Some(i)
    ensures var parts := Split(line, ':');
      |parts| > 1 && parts[0] == line[..i] && Join(parts[1..], ':') == line[i + 1..]
  {
    var rest := Split(line[i + 1..], ':');
    assert Split(line, ':') == [line[..i]] + rest;
    assert ([line[..i]] + rest)[1..] == rest;
    JoinSplit(line[i + 1..], ':');
  }

  /** The pair of a line whose first colon is at `i > 0`. */
  lemma ParseLineAt(line: string, i: nat)
    requires 0 < i < |line| && line[i] == ':' && ':' !in line[..i]
    ensures ParseLine(line) == Some((Trim(line[..i]), Trim(line[i + 1..])))
  {
    assert IndexOf(line, ':') == Some(i);
    ParseLineAtFirstColon(line);
  }

  /**
   * The raw key is checked before trimming: a key made only of white space
   * (`" : x"`) is kept and stored under the empty key.
   */
  lemma BlankKeyIsKept(line: string, i: nat)
    requires 0 < i < |line| && line[i] == ':'
    requires forall k :: 0 <= k < i ==> IsSpace(line[k])
    ensures ParseLine(line).Some? && ParseLine(line).value.0 == ""
  {
    assert forall k :: 0 <= k < i ==> line[..i][k] == line[k];
    ParseLineAt(line, i);
  }

  /** ... while an empty raw key (`":x"`) drops the line. */
  lemma EmptyKeyIsDropped(line: string)
    requires line != [] && line[0] == ':'
    ensures ParseLine(line) == None
  {
    assert IndexOf(line, ':') == Some(0);
    ParseLineAtFirstColon(line);
  }

  /** `entry` is a kept pair with key `k`. */
  predicate Defines(entry: Option<(string, string)>, k: string)
  {
    entry.Some? && entry.value.0 == k
  }

  /** One step of the `forEach`: store the line's pair, if any, over what is there. */
  function Store(m: Entries, entry: Option<(string, string)>): Entries
  {
    match entry
    case None => m
    case Some((k, v)) => m[k := v]
  }

  /** The dictionary after storing `entries` in order, starting from `{}`. */
  function Collect(entries: seq<Option<(string, string)>>): Entries
    decreases |entries|
  {
    if entries == [] then map[]
    else Store(Collect(entries[..|entries| - 1]), entries[|entries| - 1])
  }

  /** The pair of each line, in order. */
  function Parsed(lines: seq<string>): (entries: seq<Option<(string, string)>>)
    ensures |entries| == |lines|
    ensures forall j :: 0 <= j < |lines| ==> entries[j] == ParseLine(lines[j])
  {
    seq(|lines|, j requires 0 <= j < |lines| => ParseLine(lines[j]))
  }

  /** The dictionary after the `forEach` has visited `lines` in order. */
  function Fields(lines: seq<string>): Entries
  {
    Collect(Parsed(lines))
  }

  lemma CollectSnoc(entries: seq<Option<(string, string)>>, e: Option<(string, string)>)
    ensures Collect(entries + [e]) == Store(Collect(entries), e)
  {
    assert (entries + [e])[..|entries|] == entries;
  }

  /** Visiting one more line stores its pair over the dictionary so far. */
  lemma FieldsSnoc(lines: seq<string>, line: string)
    ensures Fields(lines + [line]) == Store(Fields(lines), ParseLine(line))
  {
    assert Parsed(lines + [line]) == Parsed(lines) + [ParseLine(line)];
    CollectSnoc(Parsed(lines), ParseLine(line));
  }

  lemma ParsedAppend(a: seq<string>, b: seq<string>)
    ensures Parsed(a + b) == Parsed(a) + Parsed(b)
  {
    var l, r := Parsed(a + b), Parsed(a) + Parsed(b);
    assert |l| == |r|;
    forall j | 0 <= j < |l|
      ensures l[j] == r[j]
    {
      if j < |a| { assert (a + b)[j] == a[j]; } else { assert (a + b)[j] == b[j - |a|]; }
    }
  }

  lemma {:induction false} CollectLookup(entries: seq<Option<(string, string)>>, k: string)
    ensures k in Collect(entries) <==> exists j :: 0 <= j < |entries| && Defines(entries[j], k)
    ensures k in Collect(entries) ==>
              exists j :: 0 <= j < |entries| && entries[j] == Some((k, Collect(entries)[k]))
                          && forall j' :: j < j' < |entries| ==> !Defines(entries[j'], k)
    decreases |entries|
  {
    if entries != [] {
      var n := |entries| - 1;
      var init := entries[..n];
      CollectLookup(init, k);
      assert entries == init + [entries[n]];
      CollectSnoc(init, entries[n]);
      assert forall j :: 0 <= j < n ==> init[j] == entries[j];
      if Defines(entries[n], k) {
        assert entries[n] == Some((k, Collect(entries)[k]));
      } else {
        assert k in Collect(entries) <==> k in Collect(init);
        if k in Collect(init) {
          var j :| 0 <= j < n && init[j] == Some((k, Collect(init)[k]))
                   && forall j' :: j < j' < n ==> !Defines(init[j'], k);
          assert entries[j] == Some((k, Collect(entries)[k]));
        }
      }
    }
  }

  /**
   * What the dictionary holds: a key is present exactly when some line
   * defines it, and its value is the one given by the LAST line defining it.
   */
  lemma FieldsLookup(lines: seq<string>, k: string)
    ensures k in Fields(lines) <==> exists j :: 0 <= j < |lines| && Defines(ParseLine(lines[j]), k)
    ensures k in Fields(lines) ==>
              exists j :: 0 <= j < |lines| && ParseLine(lines[j]) == Some((k, Fields(lines)[k]))
                          && forall j' :: j < j' < |lines| ==> !Defines(ParseLine(lines[j']), k)
  {
    CollectLookup(Parsed(lines), k);
  }

  lemma {:induction false} CollectSkipNone(a: seq<Option<(string, string)>>, b: seq<Option<(string, string)>>)
    ensures Collect(a + [None] + b) == Collect(a + b)
    decreases |b|
  {
    if b == [] {
      assert a + [None] + b == a + [None];
      assert a + b == a;
      CollectSnoc(a, None);
    } else {
      var b', x := b[..|b| - 1], b[|b| - 1];
      assert a + [None] + b == (a + [None] + b') + [x];
      assert a + b == (a + b') + [x];
      CollectSnoc(a + [None] + b', x);
      CollectSnoc(a + b', x);
      CollectSkipNone(a, b');
    }
  }

  /** A line that is not kept (no colon, or an empty raw key) changes nothing. */
  lemma FieldsSkipDropped(a: seq<string>, line: string, b: seq<string>)
    requires ParseLine(line).None?
    ensures Fields(a + [line] + b) == Fields(a + b)
  {
    ParsedAppend(a + [line], b);
    ParsedAppend(a, [line]);
    ParsedAppend(a, b);
    assert Parsed([line]) == [None];
    CollectSkipNone(Parsed(a), Parsed(b));
  }

  lemma {:induction false} CollectLastWins(a: seq<Option<(string, string)>>, b: seq<Option<(string, string)>>, k: string, v: string)
    requires forall j :: 0 <= j < |b| ==> !Defines(b[j], k)
    ensures k in Collect(a + [Some((k, v))] + b) && Collect(a + [Some((k, v))] + b)[k] == v
    decreases |b|
  {
    var e := Some((k, v));
    if b == [] {
      assert a + [e] + b == a + [e];
      CollectSnoc(a, e);
    } else {
      var b', x := b[..|b| - 1], b[|b| - 1];
      assert a + [e] + b == (a + [e] + b') + [x];
      CollectSnoc(a + [e] + b', x);
      assert !Defines(x, k);
      CollectLastWins(a, b', k, v);
    }
  }

  /** A later duplicate key overwrites an earlier one: the last definition wins. */
  lemma FieldsLastWins(a: seq<string>, line: string, b: seq<string>, k: string, v: string)
    requires ParseLine(line) == Some((k, v))
    requires forall j :: 0 <= j < |b| ==> !Defines(ParseLine(b[j]), k)
    ensures k in Fields(a + [line] + b) && Fields(a + [line] + b)[k] == v
  {
    ParsedAppend(a + [line], b);
    ParsedAppend(a, [line]);
    assert Parsed([line]) == [Some((k, v))];
    CollectLastWins(Parsed(a), Parsed(b), k, v);
  }

  /** A pair read from a line without a line feed has none in its key or value. */
  lemma ParseLineSingleLine(line: string)
    requires '\n' !in line
    ensures ParseLine(line).Some? ==> '\n' !in ParseLine(line).value.0 && '\n' !in ParseLine(line).value.1
  {
    ParseLineAtFirstColon(line);
    var i := IndexOf(line, ':');
    if i.Some? && i.value > 0 {
      SliceKeepsOut(line, '\n', 0, i.value);
      SliceKeepsOut(line, '\n', i.value + 1, |line|);
      TrimKeepsOut(line[..i.value], '\n');
      TrimKeepsOut(line[i.value + 1..], '\n');
    }
  }

  lemma {:induction false} CollectSingleLine(entries: seq<Option<(string, string)>>)
    requires forall j :: 0 <= j < |entries| && entries[j].Some? ==> '\n' !in entries[j].value.0 && '\n' !in entries[j].value.1
    ensures forall k :: k in Collect(entries) ==> '\n' !in k && '\n' !in Collect(entries)[k]
    decreases |entries|
  {
    if entries != [] {
      var n := |entries| - 1;
      CollectSingleLine(entries[..n]);
    }
  }

  /** Lines without a line feed give keys and values without one. */
  lemma FieldsSingleLine(lines: seq<string>)
    requires forall j :: 0 <= j < |lines| ==> '\n' !in lines[j]
    ensures forall k :: k in Fields(lines) ==> '\n' !in k && '\n' !in Fields(lines)[k]
  {
    forall j | 0 <= j < |lines| { ParseLineSingleLine(lines[j]); }
    CollectSingleLine(Parsed(lines));
  }

  /** `!manifest[key]`: the key is present with a non-empty value. */
  predicate HasValue(m: Entries, key: string)
  {
    key in m && m[key] != ""
  }

  /** No value of `m` spans more than one line. */
  predicate SingleLine(m: Entries)
  {
    forall k :: k in m ==> '\n' !in m[k]
  }

  /** `manifest[key]` as JavaScript reads it: undefined becomes None. */
  function Lookup(m: Entries, key: string): Option<string>
  {
    if key in m then Some(m[key]) else None
  }

  /**
   * What `loadManifest` returns or throws for the content of SKILL.md
   * (None when the file does not exist).
   */
  function ManifestOf(file: Option<string>): (r: Result<Entries, Error>)
    ensures r.Success? ==> HasValue(r.value, "name") && HasValue(r.value, "version")
  {
    match file
    case None => Failure(ManifestNotFound)
    case Some(content) =>
      match Frontmatter(content)
      case None => Failure(NoFrontmatter)
      case Some(header) =>
        var m := Fields(Split(header, '\n'));
        if HasValue(m, "name") && HasValue(m, "version") then Success(m) else Failure(MissingFields)
  }

  /** Every key and value of a loaded manifest fits on one line. */
  lemma ManifestSingleLine(file: Option<string>)
    requires ManifestOf(file).Success?
    ensures forall k :: k in ManifestOf(file).value ==> '\n' !in k
    ensures SingleLine(ManifestOf(file).value)
  {
    var header := Frontmatter(file.value).value;
    var lines := Split(header, '\n');
    SplitPiecesFree(header, '\n');
    assert forall j :: 0 <= j < |lines| ==> lines[j] in lines;
    FieldsSingleLine(lines);
  }
}
