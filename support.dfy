/**
 * blowout/support.py: the completion-timestamp holder shared by the
 * simulation objects, filename derivation from a timestamp, the routing of
 * data to the HDF5 writers and the column filtering done when a flattened
 * table is read back.
 */
module Support {
  import opened Wrappers

  /** The Python exceptions raised by the modelled code. */
  datatype Error =
    | RuntimeError(msg: string)
    | TypeError
    | IndexError
    | ValueError
    | AttributeError
    | NameError(name: string)
    | NotImplementedError

  /** A broken-down local time: the value `time.localtime()` returns. */
  datatype Time = Time(year: nat, month: nat, day: nat, hour: nat, minute: nat, second: nat)

  const NoTimestamp: string := "No timestamp: simulation not completed."

  // ---------------------------------------------------------------------
  // The Timestamp base class
  // ---------------------------------------------------------------------

  /** The `timestamp` property of a Timestamp object holding `stamp`. */
  function ReadStamp(stamp: Option<Time>): (r: Result<Time, Error>)
    ensures r.Success? <==> stamp.Some?
    ensures r.Success? ==> r.value == stamp.value
    ensures r.Failure? ==> r.error == RuntimeError(NoTimestamp)
  {
    match stamp
    case Some(t) => Success(t)
    case None => Failure(RuntimeError(NoTimestamp))
  }

  /**
   * The two-state "absent, then set" completion timestamp. The electrons,
   * the ions and the drive bunch inherit it in the source; here each of
   * those classes holds its own `stamp` field and reads it with ReadStamp.
   */
  class Timestamp {
    var stamp: Option<Time>

    constructor ()
      ensures stamp == None
      ensures Read() == Failure(RuntimeError(NoTimestamp))
    {
      stamp := None;
    }

    method SetTimestamp(t: Time)
      modifies this
      ensures stamp == Some(t)
      ensures Read() == Success(t)
    {
      stamp := Some(t);
    }

    function Read(): Result<Time, Error>
      reads this
    {
      ReadStamp(stamp)
    }
  }

  // ---------------------------------------------------------------------
  // strftime, for the directives the filename pattern uses
  // ---------------------------------------------------------------------

  function Digit(d: nat): char
    requires d < 10
  {
    (48 + d) as char
  }

  /** `n` written in decimal without padding, as `%Y` writes the year. */
  function Decimal(n: nat): (s: string)
    ensures 1 <= |s|
    ensures forall i :: 0 <= i < |s| ==> '0' <= s[i] <= '9'
  {
    if n < 10 then [Digit(n)] else Decimal(n / 10) + [Digit(n % 10)]
  }

  /** `n` zero-padded to two digits, as `%m`, `%d`, `%H`, `%M` and `%S` write it. */
  function Pad2(n: nat): string
  {
    if n < 10 then ['0', Digit(n)] else Decimal(n)
  }

  predicate IsDirective(c: char)
  {
    c == 'Y' || c == 'm' || c == 'd' || c == 'H' || c == 'M' || c == 'S'
  }

  function Directive(c: char, t: Time): string
    requires IsDirective(c)
  {
    match c
    case 'Y' => Decimal(t.year)
    case 'm' => Pad2(t.month)
    case 'd' => Pad2(t.day)
    case 'H' => Pad2(t.hour)
    case 'M' => Pad2(t.minute)
    case 'S' => Pad2(t.second)
  }

  /**
   * `time.strftime(pattern, t)`: each `%` followed by one of the six
   * directives above is replaced by the field it names; every other
   * character is copied.
   */
  function Strftime(pattern: string, t: Time): string
    decreases |pattern|
  {
    if |pattern| == 0 then ""
    else if 2 <= |pattern| && pattern[0] == '%' && IsDirective(pattern[1]) then
      Directive(pattern[1], t) + Strftime(pattern[2..], t)
    else
      [pattern[0]] + Strftime(pattern[1..], t)
  }

  predicate NoPercent(s: string)
  {
    forall i :: 0 <= i < |s| ==> s[i] != '%'
  }

  /** Every `%` in `p` starts a complete directive. */
  predicate Closed(p: string)
    decreases |p|
  {
    if |p| == 0 then true
    else if p[0] == '%' then 2 <= |p| && IsDirective(p[1]) && Closed(p[2..])
    else Closed(p[1..])
  }

  lemma {:induction false} StrftimeLiteral(s: string, t: Time)
    requires NoPercent(s)
    ensures Strftime(s, t) == s
    decreases |s|
  {
    if |s| > 0 {
      StrftimeLiteral(s[1..], t);
    }
  }

  lemma {:induction false} StrftimeAppend(p: string, s: string, t: Time)
    requires Closed(p)
    ensures Strftime(p + s, t) == Strftime(p, t) + Strftime(s, t)
    decreases |p|
  {
    if |p| == 0 {
      assert p + s == s;
    } else if p[0] == '%' {
      assert (p + s)[2..] == p[2..] + s;
      StrftimeAppend(p[2..], s, t);
    } else {
      assert (p + s)[1..] == p[1..] + s;
      StrftimeAppend(p[1..], s, t);
    }
  }

  const StampPattern: string := "%Y.%m.%d.%H%M.%S"

  function Suffix(ftype: string): string
  {
    "." + ftype + ".h5"
  }

  /** The pattern `'%Y.%m.%d.%H%M.%S.{}.h5'.format(ftype)`. */
  function FilenamePattern(ftype: string): string
  {
    StampPattern + Suffix(ftype)
  }

  predicate EndsWith(s: string, suffix: string)
  {
    |suffix| <= |s| && s[|s| - |suffix|..] == suffix
  }

  lemma {:induction false} ClosedAppend(a: string, b: string)
    requires Closed(a) && Closed(b)
    ensures Closed(a + b)
    decreases |a|
  {
    if |a| == 0 {
      assert a + b == b;
    } else if a[0] == '%' {
      assert (a + b)[2..] == a[2..] + b;
      ClosedAppend(a[2..], b);
    } else {
      assert (a + b)[1..] == a[1..] + b;
      ClosedAppend(a[1..], b);
    }
  }

  lemma ClosedDirective(c: char)
    requires IsDirective(c)
    ensures Closed(['%', c]) && Closed(['%', c, '.'])
  {
    assert ['%', c][2..] == [];
    assert ['%', c, '.'][2..] == ['.'];
    assert ['.'][1..] == [];
  }

  lemma StampPatternClosed()
    ensures Closed(StampPattern)
  {
    ClosedDirective('Y');
    ClosedDirective('m');
    ClosedDirective('d');
    ClosedDirective('H');
    ClosedDirective('M');
    ClosedDirective('S');
    var s5 := ['%', 'S'];
    var s4 := ['%', 'M', '.'] + s5;
    ClosedAppend(['%', 'M', '.'], s5);
    var s3 := ['%', 'H'] + s4;
    ClosedAppend(['%', 'H'], s4);
    var s2 := ['%', 'd', '.'] + s3;
    ClosedAppend(['%', 'd', '.'], s3);
    var s1 := ['%', 'm', '.'] + s2;
    ClosedAppend(['%', 'm', '.'], s2);
    ClosedAppend(['%', 'Y', '.'], s1);
    assert StampPattern == ['%', 'Y', '.'] + s1;
  }

  /**
   * The name strftime builds from the filename pattern: the formatted
   * time followed by the record-type suffix, unchanged.
   */
  function FormatName(ftype: string, t: Time): string
  {
    Strftime(FilenamePattern(ftype), t)
  }

  /** A record type without `%` passes through strftime as it is, after the formatted time. */
  lemma FormatNameParts(ftype: string, t: Time)
    requires NoPercent(ftype)
    ensures FormatName(ftype, t) == Strftime(StampPattern, t) + Suffix(ftype)
  {
    StampPatternClosed();
    SuffixNoPercent(ftype);
    ClosedThenLiteral(StampPattern, Suffix(ftype), t);
  }

  lemma SuffixNoPercent(ftype: string)
    requires NoPercent(ftype)
    ensures NoPercent(Suffix(ftype))
  {
    var s := Suffix(ftype);
    forall i | 0 <= i < |s|
      ensures s[i] != '%'
    {
      if 1 <= i < 1 + |ftype| {
        assert s[i] == ftype[i - 1];
      }
    }
  }

  lemma ClosedThenLiteral(p: string, s: string, t: Time)
    requires Closed(p) && NoPercent(s)
    ensures Strftime(p + s, t) == Strftime(p, t) + s
  {
    StrftimeAppend(p, s, t);
    StrftimeLiteral(s, t);
  }

  /** With a record type free of `%`, every derived name ends in that type's suffix. */
  lemma FilenameSuffix(read: StampRead, ftype: string, filename: Option<string>, now: Time)
    requires NoPercent(ftype) && TimestampToFilename(read, ftype, filename, now).Success?
    ensures EndsWith(TimestampToFilename(read, ftype, filename, now).value, Suffix(ftype))
  {
    var name := TimestampToFilename(read, ftype, filename, now).value;
    if filename.None? {
      var t := if read.Returned? then read.value.value else now;
      assert name == FormatName(ftype, t);
      FormatNameParts(ftype, t);
    }
    assert name[|name| - |Suffix(ftype)|..] == Suffix(ftype);
  }

  // ---------------------------------------------------------------------
  // Filename derivation
  // ---------------------------------------------------------------------

  /**
   * How reading `cls.timestamp` ended: a Timestamp object raises while
   * absent, whereas PlasmaParams returns its (possibly absent) value.
   */
  datatype StampRead = Raised(error: Error) | Returned(value: Option<Time>)

  /** Reading the `timestamp` property of a Timestamp object holding `stamp`. */
  function RaisingRead(stamp: Option<Time>): (r: StampRead)
    ensures r.Returned? <==> stamp.Some?
    ensures r.Returned? ==> r.value == stamp
  {
    match ReadStamp(stamp)
    case Success(t) => Returned(Some(t))
    case Failure(e) => Raised(e)
  }

  /**
   * `_timestamp2filename(cls, ftype, filename)`: an explicit name gets the
   * record-type suffix; otherwise the timestamp read from `cls` (or, if that
   * read raised RuntimeError, the local time `now`) is formatted. A read that
   * returned None reaches `strftime`, which raises TypeError.
   */
  function TimestampToFilename(read: StampRead, ftype: string, filename: Option<string>, now: Time)
    : (r: Result<string, Error>)
    ensures filename.Some? ==> r == Success(filename.value + Suffix(ftype))
    ensures filename.None? && read.Raised? && read.error.RuntimeError? ==> r == Success(FormatName(ftype, now))
    ensures filename.None? && read.Returned? && read.value.Some? ==> r == Success(FormatName(ftype, read.value.value))
    ensures r.Failure? <==> filename.None? && (read == Returned(None) || (read.Raised? && !read.error.RuntimeError?))
  {
    if filename.Some? then
      Success(filename.value + Suffix(ftype))
    else
      match read
      case Raised(e) =>
        if e.RuntimeError? then Success(FormatName(ftype, now)) else Failure(e)
      case Returned(v) =>
        if v.Some? then Success(FormatName(ftype, v.value)) else Failure(TypeError)
  }

  /**
   * The evidently intended derivation: an absent timestamp falls back to the
   * local time whether the read raised or returned None.
   */
  function TimestampToFilenameCorrected(read: StampRead, ftype: string, filename: Option<string>, now: Time)
    : (r: Result<string, Error>)
    ensures filename.Some? ==> r == Success(filename.value + Suffix(ftype))
    ensures filename.None? && read.Returned? && read.value.Some? ==> r == Success(FormatName(ftype, read.value.value))
    ensures filename.None? && (read == Returned(None) || (read.Raised? && read.error.RuntimeError?)) ==>
              r == Success(FormatName(ftype, now))
    ensures r.Failure? <==> filename.None? && read.Raised? && !read.error.RuntimeError?
  {
    if filename.None? && read == Returned(None) then
      Success(FormatName(ftype, now))
    else
      TimestampToFilename(read, ftype, filename, now)
  }

  /** A PlasmaParams object that has no timestamp cannot name its file. */
  lemma ParamsFilenameBeforeCompletion(ftype: string, now: Time)
    ensures TimestampToFilename(Returned(None), ftype, None, now) == Failure(TypeError)
    ensures TimestampToFilenameCorrected(Returned(None), ftype, None, now) == Success(FormatName(ftype, now))
  {
  }

  /** Neither kind of timestamp read makes the corrected derivation fail. */
  lemma CorrectedFilenameTotal(stamp: Option<Time>, ftype: string, filename: Option<string>, now: Time)
    ensures TimestampToFilenameCorrected(RaisingRead(stamp), ftype, filename, now).Success?
    ensures TimestampToFilenameCorrected(Returned(stamp), ftype, filename, now).Success?
  {
  }

  // ---------------------------------------------------------------------
  // Writing and reading data columns
  // ---------------------------------------------------------------------

  /** A numpy dtype, as far as the writers distinguish them. */
  datatype DType = ObjectDType | NumericDType(code: string)

  /** `_write_arrays` stores one referenced dataset per element; `_write_scalars` one dense dataset. */
  datatype Writer = ArraysWriter | ScalarsWriter

  /** `_write_data`: which writer a column goes to. */
  function WriteDataRoute(dtype: DType): (w: Writer)
    ensures w == ArraysWriter <==> dtype == ObjectDType
  {
    if dtype == ObjectDType then ArraysWriter else ScalarsWriter
  }

  /** The name of the helper group `_write_arrays` creates beside a column. */
  function RefsGroup(name: string): string
  {
    "_refs_" + name
  }

  /** `re.compile('_').match(name)`: the name starts with an underscore. */
  predicate Hidden(name: string)
  {
    0 < |name| && name[0] == '_'
  }

  /** The keys `_read_dict` keeps, in the order the group lists them. */
  function VisibleNames(names: seq<string>): seq<string>
  {
    if names == [] then []
    else
      var last := names[|names| - 1];
      VisibleNames(names[..|names| - 1]) + (if Hidden(last) then [] else [last])
  }

  lemma {:induction false} VisibleNamesMember(names: seq<string>, n: string)
    ensures n in VisibleNames(names) <==> n in names && !Hidden(n)
  {
    if names != [] {
      var init := names[..|names| - 1];
      VisibleNamesMember(init, n);
      assert names == init + [names[|names| - 1]];
    }
  }

  /** Filtering commutes with concatenation, so the kept keys keep their order. */
  lemma {:induction false} VisibleNamesAppend(a: seq<string>, b: seq<string>)
    ensures VisibleNames(a + b) == VisibleNames(a) + VisibleNames(b)
    decreases |b|
  {
    if b == [] {
      assert a + b == a;
    } else {
      var init := b[..|b| - 1];
      assert (a + b)[..|a + b| - 1] == a + init;
      VisibleNamesAppend(a, init);
    }
  }

  /** The `_refs_<name>` groups written beside object columns are never read back as columns. */
  lemma RefsGroupsNeverRead(name: string, keys: seq<string>)
    ensures RefsGroup(name) !in VisibleNames(keys)
  {
    VisibleNamesMember(keys, RefsGroup(name));
  }

  /**
   * The column layout `_read_dict` builds before it reads any values: the
   * visible keys, in order, each of which must hold references (otherwise
   * NotImplementedError); no visible key at all fails at `valid_names[0]`.
   */
  method ReadDictLayout(keys: seq<string>, isReference: string -> bool) returns (r: Result<seq<string>, Error>)
    ensures r.Success? ==> r.value == VisibleNames(keys)
    ensures r.Success? <==> VisibleNames(keys) != [] && forall n :: n in VisibleNames(keys) ==> isReference(n)
    ensures r.Failure? ==> r.error == (if VisibleNames(keys) == [] then IndexError else NotImplementedError)
  {
    var valid: seq<string> := [];
    for i := 0 to |keys|
      invariant valid == VisibleNames(keys[..i])
      invariant forall n :: n in valid ==> isReference(n)
    {
      assert keys[..i + 1][..i] == keys[..i];
      var nm := keys[i];
      if !Hidden(nm) {
        valid := valid + [nm];
        if !isReference(nm) {
          assert keys == keys[..i + 1] + keys[i + 1..];
          VisibleNamesAppend(keys[..i + 1], keys[i + 1..]);
          return Failure(NotImplementedError);
        }
      }
    }
    assert keys[..|keys|] == keys;
    if |valid| == 0 {
      return Failure(IndexError);
    }
    return Success(valid);
  }
}
