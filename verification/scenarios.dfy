/**
 Statements about the pipeline on particular inputs: the date examples, an unknown
 tag, the cursor rule of INFO, and a two-file scan whose second file has no
 INFO line of its own. Lines are written as their tokens joined by '|', so
 the statements hold for any tag spelling and any field text.
 */
module Scenarios {
  import opened Wrappers
  import opened Strings
  import opened Strconv
  import opened Model
  import opened Converters
  import opened Core
  import opened Scan

  /* Two padded digits: tens, then units. */
  lemma PadTwo(n: nat)
    requires n < 100
    ensures PadNat(n, 2) == [DigitChar(n / 10), DigitChar(n % 10)]
  {
    assert PadNat(n / 10, 1) == PadNat(0, 0) + [DigitChar(n / 10)];
  }

  lemma PaddedYear()
    ensures PadNat(2024, 4) == "2024"
  {
    PadTwo(20);
    assert PadNat(202, 3) == PadNat(20, 2) + [DigitChar(2)];
    assert PadNat(2024, 4) == PadNat(202, 3) + [DigitChar(4)];
  }

  lemma PaddedDayMonth()
    ensures PadNat(1, 2) == "01" && PadNat(6, 2) == "06"
    ensures PadNat(5, 2) == "05" && PadNat(13, 2) == "13"
  {
    PadTwo(1);
    PadTwo(6);
    PadTwo(5);
    PadTwo(13);
  }

  lemma PaddedDateText()
    ensures FormatDate(1, 6, 2024) == "01/06/2024"
    ensures FormatDate(5, 13, 2024) == "05/13/2024"
  {
    PaddedYear();
    PaddedDayMonth();
    assert Join(["01", "06", "2024"], '/') == "01/06/2024";
    assert Join(["05", "13", "2024"], '/') == "05/13/2024";
  }

  /* Zero-padded dates convert to YYYYMMDD. */
  lemma ConvertDatePadded()
    ensures ConvertDate("01/06/2024") == 20240601
  {
    PaddedDateText();
    ConvertFormatDateInRange(1, 6, 2024);
  }

  /* No calendar check: month 13 passes. */
  lemma ConvertDateMonthThirteen()
    ensures ConvertDate("05/13/2024") == 20241305
  {
    PaddedDateText();
    ConvertFormatDateInRange(5, 13, 2024);
  }

  /* Without zero padding, a one-digit day and month glue to a six-digit
  value, which is always below the accepted range. */
  lemma ConvertDateUnpadded(dd: string, mm: string, yyyy: string)
    requires IsDigits(dd) && IsDigits(mm) && IsDigits(yyyy)
    requires |dd| == 1 && |mm| == 1 && |yyyy| == 4
    ensures ConvertDate(Join([dd, mm, yyyy], '/')) == 0
  {
    ConvertDateShort(dd, mm, yyyy);
  }

  /* More generally, three digit pieces with fewer than eight digits in all
  always convert to 0: the glued value is below 10^7. */
  lemma ConvertDateShort(dd: string, mm: string, yyyy: string)
    requires IsDigits(dd) && IsDigits(mm) && IsDigits(yyyy)
    requires |dd| + |mm| + |yyyy| <= 7
    ensures ConvertDate(Join([dd, mm, yyyy], '/')) == 0
  {
    ConvertDateOfDigits(dd, mm, yyyy);
    DigitsValueBound(yyyy + mm + dd);
    Pow10Monotonic(|yyyy + mm + dd|, 7);
    assert Pow10(7) == 10000000;
  }

  /* The value of the padded pieces of 01/06/2024 glued year first. */
  lemma PaddedGluedValue()
    ensures IsDigits("2024" + "06" + "01")
    ensures DigitsValue("2024" + "06" + "01") == 20240601
  {
    PaddedYear();
    PaddedDayMonth();
    var dd, mm, yyyy := PadNat(1, 2), PadNat(6, 2), PadNat(2024, 4);
    DigitsValueAppend(yyyy, mm);
    DigitsValueAppend(yyyy + mm, dd);
    assert DigitsValue(yyyy + mm + dd) == (2024 * 100 + 6) * 100 + 1;
  }

  /* Two zeros in front of a digit string leave its value alone. */
  lemma ZerosPrefix(d: string)
    requires IsDigits(d)
    ensures IsDigits("00" + d) && DigitsValue("00" + d) == DigitsValue(d)
  {
    assert DigitsValue("00") == 0 by { assert "00"[..1] == "0"; }
    DigitsValueAppend("00", d);
  }

  /* Extra leading zeros in a piece are read through: "002024" is 2024. */
  lemma ConvertDateExtraZeros()
    ensures ConvertDate("01/06/002024") == 20240601
  {
    var glued := "2024" + "06" + "01";
    PaddedGluedValue();
    ZerosPrefix(glued);
    assert "002024" + "06" + "01" == "00" + glued;
    var parts := ["01", "06", "002024"];
    assert NoSep(parts, '/') by {
      assert '/' !in "01" && '/' !in "06" && '/' !in "002024";
    }
    SplitJoin(parts, '/');
    assert Join(parts, '/') == "01/06/002024";
  }

  /* A sign in front of the year is accepted by the integer parser, so
  "01/06/+2024" converts like "01/06/2024". */
  lemma ConvertDateSignedYear()
    ensures ConvertDate("01/06/+2024") == 20240601
  {
    var glued := "2024" + "06" + "01";
    PaddedGluedValue();
    ParsePlus(glued);
    assert "+2024" + "06" + "01" == "+" + glued;
    var parts := ["01", "06", "+2024"];
    assert NoSep(parts, '/') by {
      assert '/' !in "01" && '/' !in "06" && '/' !in "+2024";
    }
    SplitJoin(parts, '/');
    assert Join(parts, '/') == "01/06/+2024";
  }

  lemma ConvertDateUnpaddedExample()
    ensures ConvertDate("1/6/2024") == 0
  {
    assert Join(["1", "6", "2024"], '/') == "1/6/2024";
    ConvertDateUnpadded("1", "6", "2024");
  }

  lemma YearFirstValue()
    ensures IsDigits("05" + "13" + "2024")
    ensures DigitsValue("05" + "13" + "2024") == 5132024
  {
    PaddedYear();
    PaddedDayMonth();
    var dd, mm, yyyy := PadNat(5, 2), PadNat(13, 2), PadNat(2024, 4);
    DigitsValueAppend(dd, mm);
    DigitsValueAppend(dd + mm, yyyy);
    assert DigitsValue(dd + mm + yyyy) == (5 * 100 + 13) * 10000 + 2024;
  }

  /* Year first: YYYY/MM/DD glues to DD+MM+YYYY = 5132024, out of range. */
  lemma ConvertDateYearFirst()
    ensures ConvertDate("2024/13/05") == 0
  {
    assert Join(["2024", "13", "05"], '/') == "2024/13/05";
    ConvertDateOfDigits("2024", "13", "05");
    YearFirstValue();
  }

  /* Another separator: one piece, not three. */
  lemma ConvertDateWrongSeparator()
    ensures ConvertDate("01-06-2024") == 0
  {
    assert NoSep(["01-06-2024"], '/');
    SplitJoin(["01-06-2024"], '/');
  }

  /* A line with a tag the pipeline does not know is dropped, whatever
  follows it. */
  lemma UnknownTagIgnored(env: Env, s: AccountSet, parts: seq<string>)
    requires |parts| >= 1 && NoSep(parts, Delimiter)
    requires parts[0] !in env.tags.All()
    ensures LineSafe(env, s, Join(parts, Delimiter))
    ensures HandleLine(env, s, Join(parts, Delimiter)) == s
  {
    TokensOfJoin(parts);
    HandleLineDispatch(env, s, parts);
  }

  function InfoLine(tags: Tags, code: string, ticker: string, name: string): string {
    Join([tags.info, code, ticker, name], Delimiter)
  }

  /* A DAILY line: date, then open equity, net profit, true range, number of
  trades, equity and balance. */
  function DailyLine(tags: Tags, date: string, fields: seq<string>): string
    requires |fields| == 6
  {
    Join([tags.daily, date] + fields, Delimiter)
  }

  /* The strings that can be tokens of a line. */
  predicate Token(t: string) {
    Delimiter !in t
  }

  lemma InfoLineTokens(tags: Tags, code: string, ticker: string, name: string)
    requires Token(tags.info) && Token(code) && Token(ticker) && Token(name)
    ensures Tokens(InfoLine(tags, code, ticker, name)) == [tags.info, code, ticker, name]
  {
    TokensOfJoin([tags.info, code, ticker, name]);
  }

  lemma DailyLineTokens(tags: Tags, date: string, fields: seq<string>)
    requires |fields| == 6 && Token(tags.daily) && Token(date)
    requires forall i :: 0 <= i < 6 ==> Token(fields[i])
    ensures Tokens(DailyLine(tags, date, fields)) == [tags.daily, date] + fields
  {
    var parts := [tags.daily, date] + fields;
    assert forall i :: 2 <= i < |parts| ==> parts[i] == fields[i - 2];
    TokensOfJoin(parts);
  }

  /* The first INFO line of a scan creates its account and strategy and
  points both cursors at them. */
  lemma FirstInfoCreates(env: Env, code: string, ticker: string, name: string)
    requires Token(env.tags.info) && Token(code) && Token(ticker) && Token(name)
    ensures LineSafe(env, NewAccountSet(), InfoLine(env.tags, code, ticker, name))
    ensures var r := HandleLine(env, NewAccountSet(), InfoLine(env.tags, code, ticker, name));
      && r.currAccount == Some(code)
      && r.currStrategy == Some(StrategyKey(code, name))
      && r.accounts == map[code := Account(code, 0.0, 0.0, map[name := Strategy(name, ticker, [], [])])]
  {
    InfoLineTokens(env.tags, code, ticker, name);
    HandleLineDispatch(env, NewAccountSet(), [env.tags.info, code, ticker, name]);
  }

  /*
   Cursors move only on creation: after INFO a/n1, INFO a/n2, INFO a/n1 the
   current strategy is still a/n2, and the third line changes nothing.
   */
  lemma InfoOnExistingPairKeepsCursor(env: Env, s0: AccountSet, code: string, ticker: string, n1: string, n2: string)
    requires Token(env.tags.info) && Token(code) && Token(ticker) && Token(n1) && Token(n2)
    requires n1 != n2
    requires s0.Lookup(StrategyKey(code, n1)).None? && s0.Lookup(StrategyKey(code, n2)).None?
    ensures LineSafe(env, s0, InfoLine(env.tags, code, ticker, n1))
    ensures var s1 := HandleLine(env, s0, InfoLine(env.tags, code, ticker, n1));
      LineSafe(env, s1, InfoLine(env.tags, code, ticker, n2)) &&
      var s2 := HandleLine(env, s1, InfoLine(env.tags, code, ticker, n2));
      LineSafe(env, s2, InfoLine(env.tags, code, ticker, n1)) &&
      var s3 := HandleLine(env, s2, InfoLine(env.tags, code, ticker, n1));
      && s3 == s2
      && s3.currStrategy == Some(StrategyKey(code, n2))
  {
    InfoLineTokens(env.tags, code, ticker, n1);
    InfoLineTokens(env.tags, code, ticker, n2);
    var s1 := HandleLine(env, s0, InfoLine(env.tags, code, ticker, n1));
    HandleLineDispatch(env, s0, [env.tags.info, code, ticker, n1]);
    assert s1.Lookup(StrategyKey(code, n1)).Some?;
    var s2 := HandleLine(env, s1, InfoLine(env.tags, code, ticker, n2));
    HandleLineDispatch(env, s1, [env.tags.info, code, ticker, n2]);
    HandleLineDispatch(env, s2, [env.tags.info, code, ticker, n1]);
    assert s2.Lookup(StrategyKey(code, n1)) == s1.Lookup(StrategyKey(code, n1));
  }

  /* A DAILY line with a valid date appends its record to the current
  strategy, whichever file it comes from. */
  lemma DailyLineAppends(env: Env, s: AccountSet, date: string, fields: seq<string>)
    requires env.tags.Distinct() && Token(env.tags.daily) && Token(date)
    requires |fields| == 6 && forall i :: 0 <= i < 6 ==> Token(fields[i])
    requires ConvertDate(date) != 0 && s.HasCurrent()
    ensures LineSafe(env, s, DailyLine(env.tags, date, fields))
    ensures var r := HandleLine(env, s, DailyLine(env.tags, date, fields));
      && OnlyCurrentChanged(s, r)
      && r.Lookup(s.currStrategy.value) ==
           Some(s.Current().(dailyInfo := s.Current().dailyInfo + [ExpectedDaily(env.parseFloat, [env.tags.daily, date] + fields)]))
  {
    DailyLineTokens(env.tags, date, fields);
    var tokens := [env.tags.daily, date] + fields;
    assert tokens[0] == env.tags.daily && tokens[1] == date;
    assert forall i :: 2 <= i < |tokens| ==> tokens[i] == fields[i - 2];
    HandleLineDispatch(env, s, tokens);
  }

  /* A listing of two log files and one other file. */
  function TwoFiles(env: Env, code: string, ticker: string, name: string,
                    date1: string, fields1: seq<string>, date2: string, fields2: seq<string>,
                    other: seq<string>): seq<DirEntry>
    requires |fields1| == 6 && |fields2| == 6
  {
    [ DirEntry("a.log", false, Some([InfoLine(env.tags, code, ticker, name), DailyLine(env.tags, date1, fields1)])),
      DirEntry("notes.txt", false, Some(other)),
      DirEntry("b.log", false, Some([DailyLine(env.tags, date2, fields2)])) ]
  }

  /* Which of the three names carry the ".log" suffix. */
  lemma TwoFilesNames()
    ensures HasSuffix("a.log", LogSuffix) && HasSuffix("b.log", LogSuffix)
    ensures !HasSuffix("notes.txt", LogSuffix)
  {
    assert "a.log"[1..] == LogSuffix && "b.log"[1..] == LogSuffix;
    assert "notes.txt"[5..] == ".txt";
    assert ".txt"[1] != LogSuffix[1];
  }

  lemma TwoFilesSelected(env: Env, code: string, ticker: string, name: string,
                          date1: string, fields1: seq<string>, date2: string, fields2: seq<string>,
                          other: seq<string>)
    requires |fields1| == 6 && |fields2| == 6
    ensures SelectedLines(TwoFiles(env, code, ticker, name, date1, fields1, date2, fields2, other)) ==
      [InfoLine(env.tags, code, ticker, name), DailyLine(env.tags, date1, fields1), DailyLine(env.tags, date2, fields2)]
  {
    var entries := TwoFiles(env, code, ticker, name, date1, fields1, date2, fields2, other);
    TwoFilesNames();
    assert SelectedLines(entries[2..]) == [DailyLine(env.tags, date2, fields2)];
    assert SelectedLines(entries[1..]) == [DailyLine(env.tags, date2, fields2)];
  }

  /* Folding three lines is applying HandleLine three times. */
  lemma FoldThreeLines(env: Env, s0: AccountSet, l1: string, l2: string, l3: string)
    requires LineSafe(env, s0, l1)
    requires LineSafe(env, HandleLine(env, s0, l1), l2)
    requires LineSafe(env, HandleLine(env, HandleLine(env, s0, l1), l2), l3)
    ensures LinesSafe(env, s0, [l1, l2, l3])
    ensures HandleLines(env, s0, [l1, l2, l3]) ==
      HandleLine(env, HandleLine(env, HandleLine(env, s0, l1), l2), l3)
  {
    var s1 := HandleLine(env, s0, l1);
    var s2 := HandleLine(env, s1, l2);
    FoldFirst(env, s2, l3, []);
    assert [l3] == [l3] + [];
    FoldFirst(env, s1, l2, [l3]);
    assert [l2, l3] == [l2] + [l3];
    FoldFirst(env, s0, l1, [l2, l3]);
    assert [l1, l2, l3] == [l1] + [l2, l3];
  }

  /* One line handled in front of the rest of a file. */
  lemma FoldFirst(env: Env, s: AccountSet, l: string, rest: seq<string>)
    requires LineSafe(env, s, l) && LinesSafe(env, HandleLine(env, s, l), rest)
    ensures LinesSafe(env, s, [l] + rest)
    ensures HandleLines(env, s, [l] + rest) == HandleLines(env, HandleLine(env, s, l), rest)
  {
    assert ([l] + rest)[0] == l && ([l] + rest)[1..] == rest;
  }

  /* The account set of one account with one strategy, which is current. */
  predicate SingleStrategy(s: AccountSet, code: string, st: Strategy) {
    && s.accounts == map[code := Account(code, 0.0, 0.0, map[st.name := st])]
    && s.currStrategy == Some(StrategyKey(code, st.name))
  }

  lemma AppendKeepsSingle(s: AccountSet, r: AccountSet, code: string, st: Strategy, d: DailyInfo)
    requires SingleStrategy(s, code, st)
    requires s.HasCurrent() && OnlyCurrentChanged(s, r)
    requires r.Lookup(StrategyKey(code, st.name)) == Some(st.(dailyInfo := st.dailyInfo + [d]))
    ensures SingleStrategy(r, code, st.(dailyInfo := st.dailyInfo + [d]))
  {
    var st' := st.(dailyInfo := st.dailyInfo + [d]);
    assert r.accounts[code].strategies.Keys == {st.name};
    assert r.accounts[code].strategies[st.name] == st';
    assert r.accounts[code] == Account(code, 0.0, 0.0, map[st.name := st']);
  }

  /* A DAILY line is handled by HandleDaily on its tokens. */
  lemma DailyLineDispatch(env: Env, s: AccountSet, date: string, fields: seq<string>)
    requires env.tags.Distinct() && Token(env.tags.daily) && Token(date)
    requires |fields| == 6 && forall i :: 0 <= i < 6 ==> Token(fields[i])
    requires ConvertDate(date) != 0 ==> s.HasCurrent()
    ensures LineSafe(env, s, DailyLine(env.tags, date, fields))
    ensures HandleLine(env, s, DailyLine(env.tags, date, fields)) ==
      HandleDaily(env.parseFloat, s, [env.tags.daily, date] + fields)
  {
    DailyLineTokens(env.tags, date, fields);
    var tokens := [env.tags.daily, date] + fields;
    assert tokens[0] == env.tags.daily && tokens[1] == date;
    assert forall i :: 2 <= i < |tokens| ==> tokens[i] == fields[i - 2];
    HandleLineDispatch(env, s, tokens);
  }

  /* Two valid DAILY records on the single current strategy land in it, in order. */
  lemma TwoDailyOnSingle(parseFloat: string -> Option<real>, s1: AccountSet, code: string, st: Strategy,
                         t1: seq<string>, t2: seq<string>)
    requires |t1| == 8 && |t2| == 8
    requires ConvertDate(t1[1]) != 0 && ConvertDate(t2[1]) != 0
    requires SingleStrategy(s1, code, st)
    ensures s1.HasCurrent()
    ensures HandleDaily(parseFloat, s1, t1).HasCurrent()
    ensures SingleStrategy(HandleDaily(parseFloat, HandleDaily(parseFloat, s1, t1), t2), code,
      st.(dailyInfo := st.dailyInfo + [ExpectedDaily(parseFloat, t1), ExpectedDaily(parseFloat, t2)]))
  {
    var key := StrategyKey(code, st.name);
    var d1, d2 := ExpectedDaily(parseFloat, t1), ExpectedDaily(parseFloat, t2);
    assert s1.Lookup(key) == Some(st);
    var s2 := HandleDaily(parseFloat, s1, t1);
    AppendKeepsSingle(s1, s2, code, st, d1);
    var st2 := st.(dailyInfo := st.dailyInfo + [d1]);
    assert s2.Lookup(key) == Some(st2);
    var s3 := HandleDaily(parseFloat, s2, t2);
    AppendKeepsSingle(s2, s3, code, st2, d2);
    assert st2.dailyInfo + [d2] == st.dailyInfo + [d1, d2];
  }

  /* The three lines of the two log files, fed as one sequence. */
  lemma InfoThenTwoDaily(env: Env, code: string, ticker: string, name: string,
                         date1: string, fields1: seq<string>, date2: string, fields2: seq<string>)
    requires env.tags.Distinct() && Token(env.tags.info) && Token(env.tags.daily)
    requires Token(code) && Token(ticker) && Token(name) && Token(date1) && Token(date2)
    requires |fields1| == 6 && forall i :: 0 <= i < 6 ==> Token(fields1[i])
    requires |fields2| == 6 && forall i :: 0 <= i < 6 ==> Token(fields2[i])
    requires ConvertDate(date1) != 0 && ConvertDate(date2) != 0
    ensures var lines := [InfoLine(env.tags, code, ticker, name), DailyLine(env.tags, date1, fields1), DailyLine(env.tags, date2, fields2)];
      LinesSafe(env, NewAccountSet(), lines) &&
      var r := HandleLines(env, NewAccountSet(), lines);
      SingleStrategy(r, code, Strategy(name, ticker,
        [ExpectedDaily(env.parseFloat, [env.tags.daily, date1] + fields1),
         ExpectedDaily(env.parseFloat, [env.tags.daily, date2] + fields2)], []))
  {
    var s0 := NewAccountSet();
    var l1, l2, l3 := InfoLine(env.tags, code, ticker, name), DailyLine(env.tags, date1, fields1), DailyLine(env.tags, date2, fields2);
    FirstInfoCreates(env, code, ticker, name);
    var st := Strategy(name, ticker, [], []);
    TwoDailyLines(env, HandleLine(env, s0, l1), code, st, date1, fields1, date2, fields2);
    var d1 := ExpectedDaily(env.parseFloat, [env.tags.daily, date1] + fields1);
    var d2 := ExpectedDaily(env.parseFloat, [env.tags.daily, date2] + fields2);
    FreshStrategyAppend(name, ticker, d1, d2);
    FoldThreeSingle(env, s0, l1, l2, l3, code, Strategy(name, ticker, [d1, d2], []));
  }

  lemma FreshStrategyAppend(name: string, ticker: string, d1: DailyInfo, d2: DailyInfo)
    ensures var st := Strategy(name, ticker, [], []);
      st.(dailyInfo := st.dailyInfo + [d1, d2]) == Strategy(name, ticker, [d1, d2], [])
  {
    assert [] + [d1, d2] == [d1, d2];
  }

  /* Three lines whose step-by-step result has one strategy fold to that result. */
  lemma FoldThreeSingle(env: Env, s0: AccountSet, l1: string, l2: string, l3: string, code: string, st: Strategy)
    requires LineSafe(env, s0, l1)
    requires LineSafe(env, HandleLine(env, s0, l1), l2)
    requires LineSafe(env, HandleLine(env, HandleLine(env, s0, l1), l2), l3)
    requires SingleStrategy(HandleLine(env, HandleLine(env, HandleLine(env, s0, l1), l2), l3), code, st)
    ensures LinesSafe(env, s0, [l1, l2, l3]) && SingleStrategy(HandleLines(env, s0, [l1, l2, l3]), code, st)
  {
    FoldThreeLines(env, s0, l1, l2, l3);
  }

  /* Two valid DAILY lines on the single current strategy of `s1` append
  their records to it, in order. */
  lemma TwoDailyLines(env: Env, s1: AccountSet, code: string, st: Strategy,
                      date1: string, fields1: seq<string>, date2: string, fields2: seq<string>)
    requires env.tags.Distinct() && Token(env.tags.daily) && Token(date1) && Token(date2)
    requires |fields1| == 6 && forall i :: 0 <= i < 6 ==> Token(fields1[i])
    requires |fields2| == 6 && forall i :: 0 <= i < 6 ==> Token(fields2[i])
    requires ConvertDate(date1) != 0 && ConvertDate(date2) != 0
    requires SingleStrategy(s1, code, st)
    ensures LineSafe(env, s1, DailyLine(env.tags, date1, fields1))
    ensures var s2 := HandleLine(env, s1, DailyLine(env.tags, date1, fields1));
      LineSafe(env, s2, DailyLine(env.tags, date2, fields2)) &&
      SingleStrategy(HandleLine(env, s2, DailyLine(env.tags, date2, fields2)), code,
        st.(dailyInfo := st.dailyInfo + [ExpectedDaily(env.parseFloat, [env.tags.daily, date1] + fields1),
                                         ExpectedDaily(env.parseFloat, [env.tags.daily, date2] + fields2)]))
  {
    var t1, t2 := [env.tags.daily, date1] + fields1, [env.tags.daily, date2] + fields2;
    assert t1[1] == date1 && t2[1] == date2;
    TwoDailyOnSingle(env.parseFloat, s1, code, st, t1, t2);
    DailyLineDispatch(env, s1, date1, fields1);
    var s2 := HandleLine(env, s1, DailyLine(env.tags, date1, fields1));
    DailyLineDispatch(env, s2, date2, fields2);
  }

  /*
   A scan of a.log (INFO code/ticker/name, then a DAILY line) and b.log
   (a DAILY line only, no INFO): the strategy ends with two daily records,
   the second attributed through the cursor carried over from a.log. The
   file that does not end in ".log" is not read, whatever it holds.
   */
  lemma CursorCarriesAcrossFiles(env: Env, published: map<string, Account>,
                                 code: string, ticker: string, name: string,
                                 date1: string, fields1: seq<string>, date2: string, fields2: seq<string>,
                                 other: seq<string>)
    requires env.tags.Distinct() && Token(env.tags.info) && Token(env.tags.daily)
    requires Token(code) && Token(ticker) && Token(name) && Token(date1) && Token(date2)
    requires |fields1| == 6 && forall i :: 0 <= i < 6 ==> Token(fields1[i])
    requires |fields2| == 6 && forall i :: 0 <= i < 6 ==> Token(fields2[i])
    requires ConvertDate(date1) != 0 && ConvertDate(date2) != 0
    ensures RunSafe(env, Some(TwoFiles(env, code, ticker, name, date1, fields1, date2, fields2, other)))
    ensures var r := Run(env, published, Some(TwoFiles(env, code, ticker, name, date1, fields1, date2, fields2, other)));
      r == map[code := Account(code, 0.0, 0.0, map[name := Strategy(name, ticker,
        [ExpectedDaily(env.parseFloat, [env.tags.daily, date1] + fields1),
         ExpectedDaily(env.parseFloat, [env.tags.daily, date2] + fields2)], [])])]
  {
    TwoFilesSelected(env, code, ticker, name, date1, fields1, date2, fields2, other);
    InfoThenTwoDaily(env, code, ticker, name, date1, fields1, date2, fields2);
  }
}
