/**
 The file parser and the directory scan of pkg/core/core.go: `handleFile`
 folds `handleLine` over a file's lines, and `run` folds `handleFile` over
 a directory listing with one fresh account set, then publishes its
 accounts. The file system is abstract: a listing is a sequence of entries,
 and an entry carries the lines of the file when it can be opened.
 */
module Scan {
  import opened Wrappers
  import opened Strings
  import opened Model
  import opened Core

  /* `handleLine` does not panic on any of `lines`, fed in order from `s`. */
  predicate LinesSafe(env: Env, s: AccountSet, lines: seq<string>)
    decreases |lines|
  {
    |lines| == 0 || (LineSafe(env, s, lines[0]) && LinesSafe(env, HandleLine(env, s, lines[0]), lines[1..]))
  }

  /* The loop of `handleFile`: every line in file order, the cursors
  threaded from one line to the next. */
  function HandleLines(env: Env, s: AccountSet, lines: seq<string>): (r: AccountSet)
    requires LinesSafe(env, s, lines)
    ensures Extends(s, r)
    ensures s.Valid() ==> r.Valid()
    ensures BalancesZero(s) ==> BalancesZero(r)
    decreases |lines|
  {
    if |lines| == 0 then s
    else
      var s' := HandleLine(env, s, lines[0]);
      var r := HandleLines(env, s', lines[1..]);
      ExtendsTransitive(s, s', r);
      r
  }

  /* Feeding `a + b` is safe exactly when `a` is safe and then `b` is safe
  from where `a` left off. */
  lemma {:induction false} LinesSafeAppend(env: Env, s: AccountSet, a: seq<string>, b: seq<string>)
    ensures LinesSafe(env, s, a + b) <==>
      LinesSafe(env, s, a) && LinesSafe(env, HandleLines(env, s, a), b)
    decreases |a|
  {
    if |a| == 0 {
      assert a + b == b;
    } else {
      assert (a + b)[0] == a[0] && (a + b)[1..] == a[1..] + b;
      if LineSafe(env, s, a[0]) {
        LinesSafeAppend(env, HandleLine(env, s, a[0]), a[1..], b);
      }
    }
  }

  /* Feeding `a + b` is feeding `a`, then `b`: the fold does not reset
  anything between the two. */
  lemma {:induction false} HandleLinesAppend(env: Env, s: AccountSet, a: seq<string>, b: seq<string>)
    requires LinesSafe(env, s, a + b)
    ensures LinesSafe(env, s, a) && LinesSafe(env, HandleLines(env, s, a), b)
    ensures HandleLines(env, s, a + b) == HandleLines(env, HandleLines(env, s, a), b)
    decreases |a|
  {
    if |a| == 0 {
      assert a + b == b;
    } else {
      var s1 := HandleLine(env, s, a[0]);
      assert (a + b)[0] == a[0] && (a + b)[1..] == a[1..] + b;
      assert LinesSafe(env, s1, a[1..] + b);
      HandleLinesAppend(env, s1, a[1..], b);
      assert HandleLines(env, s, a + b) == HandleLines(env, s1, a[1..] + b);
      assert HandleLines(env, s, a) == HandleLines(env, s1, a[1..]);
    }
  }

  /* `handleFile`: a file that cannot be opened (None) contributes nothing;
  otherwise its lines are handled in order. */
  function HandleFile(env: Env, s: AccountSet, content: Option<seq<string>>): (r: AccountSet)
    requires content.Some? ==> LinesSafe(env, s, content.value)
    ensures content.None? ==> r == s
    ensures content.Some? ==> r == HandleLines(env, s, content.value)
    ensures Extends(s, r)
    ensures s.Valid() ==> r.Valid()
  {
    match content
    case None => s
    case Some(lines) => HandleLines(env, s, lines)
  }

  /* One directory entry: its name, whether it is a directory, and the
  file's lines when it can be opened for reading. */
  datatype DirEntry = DirEntry(name: string, isDir: bool, content: Option<seq<string>>)

  const LogSuffix: string := ".log"

  /* The filter of `run`: a non-directory whose name ends in ".log". */
  predicate IsLogFile(e: DirEntry) {
    !e.isDir && HasSuffix(e.name, LogSuffix)
  }

  /* Any name ending in ".log" is selected unless it is a directory, ".log"
  itself included; a name shorter than the suffix never is. */
  lemma LogFileNames(p: string, content: Option<seq<string>>)
    ensures IsLogFile(DirEntry(p + LogSuffix, false, content))
    ensures !IsLogFile(DirEntry(p + LogSuffix, true, content))
    ensures |p| < |LogSuffix| ==> !IsLogFile(DirEntry(p, false, content))
  {
  }

  /* The lines an entry contributes to a scan. */
  function EntryLines(e: DirEntry): seq<string>
  {
    if IsLogFile(e) && e.content.Some? then e.content.value else []
  }

  /* The lines of all selected, readable files, in listing order. */
  function SelectedLines(entries: seq<DirEntry>): seq<string>
    decreases |entries|
  {
    if |entries| == 0 then [] else EntryLines(entries[0]) + SelectedLines(entries[1..])
  }

  /*
   The loop of `run` over the listing. It equals one fold of `handleLine`
   over the selected files' lines concatenated in listing order: the
   cursors carry over from one file to the next, and skipped or unreadable
   entries contribute nothing.
   */
  function ScanEntries(env: Env, s: AccountSet, entries: seq<DirEntry>): (r: AccountSet)
    requires LinesSafe(env, s, SelectedLines(entries))
    ensures r == HandleLines(env, s, SelectedLines(entries))
    decreases |entries|
  {
    if |entries| == 0 then s
    else
      var e := entries[0];
      HandleLinesAppend(env, s, EntryLines(e), SelectedLines(entries[1..]));
      var s' := if IsLogFile(e) then HandleFile(env, s, e.content) else s;
      assert s' == HandleLines(env, s, EntryLines(e));
      ScanEntries(env, s', entries[1..])
  }

  /* Selection distributes over the concatenation of listings. */
  lemma {:induction false} SelectedLinesAppend(a: seq<DirEntry>, b: seq<DirEntry>)
    ensures SelectedLines(a + b) == SelectedLines(a) + SelectedLines(b)
    decreases |a|
  {
    if |a| == 0 {
      assert a + b == b;
    } else {
      assert (a + b)[0] == a[0] && (a + b)[1..] == a[1..] + b;
      SelectedLinesAppend(a[1..], b);
    }
  }

  /* An entry that is not a ".log" file, or that cannot be opened, is
  skipped wherever it stands in the listing: the scan is the scan of the
  listing without it. */
  lemma ScanSkipsEntry(env: Env, s: AccountSet, a: seq<DirEntry>, e: DirEntry, b: seq<DirEntry>)
    requires !IsLogFile(e) || e.content.None?
    requires LinesSafe(env, s, SelectedLines(a + b))
    ensures LinesSafe(env, s, SelectedLines(a + [e] + b))
    ensures ScanEntries(env, s, a + [e] + b) == ScanEntries(env, s, a + b)
  {
    var la, lb := SelectedLines(a), SelectedLines(b);
    assert SelectedLines(a + [e] + b) == la + lb by {
      SelectedLinesAppend(a + [e], b);
      SelectedLinesAppend(a, [e]);
      assert [e][1..] == [];
      assert SelectedLines([e]) == [];
      assert la + [] == la;
    }
    SelectedLinesAppend(a, b);
  }

  /* A readable ".log" file contributes all its lines, in order, at its
  place in the listing, folded on from the state the earlier files left. */
  lemma ScanReadsEntry(env: Env, s: AccountSet, a: seq<DirEntry>, e: DirEntry, b: seq<DirEntry>)
    requires IsLogFile(e) && e.content.Some?
    requires LinesSafe(env, s, SelectedLines(a) + e.content.value + SelectedLines(b))
    ensures LinesSafe(env, s, SelectedLines(a + [e] + b))
    ensures ScanEntries(env, s, a + [e] + b) ==
      HandleLines(env, s, SelectedLines(a) + e.content.value + SelectedLines(b))
  {
    SelectedLinesAppend(a + [e], b);
    SelectedLinesAppend(a, [e]);
    assert [e][1..] == [];
    assert SelectedLines([e]) == e.content.value + [];
    assert e.content.value + [] == e.content.value;
  }

  /* `run` does not panic on this listing. */
  predicate RunSafe(env: Env, listing: Option<seq<DirEntry>>) {
    listing.Some? ==> LinesSafe(env, NewAccountSet(), SelectedLines(listing.value))
  }

  /*
   `run`: a failed listing (None) leaves the published accounts as they
   were; otherwise the accounts built from a fresh account set replace
   them. The published accounts are keyed by their codes and never carry
   a balance or equity.
   */
  function Run(env: Env, published: map<string, Account>, listing: Option<seq<DirEntry>>): (r: map<string, Account>)
    requires RunSafe(env, listing)
    ensures listing.None? ==> r == published
    ensures listing.Some? ==> r == HandleLines(env, NewAccountSet(), SelectedLines(listing.value)).accounts
    ensures listing.Some? ==> forall c :: c in r ==> r[c].code == c && r[c].balance == 0.0 && r[c].equity == 0.0
  {
    match listing
    case None => published
    case Some(entries) => ScanEntries(env, NewAccountSet(), entries).accounts
  }
}
