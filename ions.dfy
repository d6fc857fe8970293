/**
 * blowout/ions.py: the ion cavity ("bubble") left behind the drive bunch.
 * For every slice the electron positions are histogrammed, the connected
 * region around the histogram pixel of the axis is taken as the cavity, and
 * an ellipse is fitted to its boundary. The per-slice intermediate results
 * are kept in seven per-step stores; at write time the ragged per-slice fit
 * records are flattened into one column table.
 *
 * The image-processing library calls (histogram, labelling, morphological
 * closing, region properties, boundaries, Hough ellipse fit) are opaque: a
 * Pipeline value supplies them. What is modelled is the bookkeeping around
 * them: which slot is written, in which order, with which value, and where
 * an exception stops the writes.
 */
module Ions {
  import opened Wrappers
  import opened Support
  import opened Numerics
  import opened Plasma

  /** A 2-D histogram, rows first. */
  type Image = seq<seq<real>>
  /** A connected-component label image. */
  type Labels = seq<seq<int>>
  /** A boolean image. */
  type Mask = seq<seq<bool>>

  /** The histogram extent `(xmin, xmax, ymin, ymax)`. */
  datatype Extent = Extent(xmin: real, xmax: real, ymin: real, ymax: real)

  /** numpy's 2-D histogram widens a degenerate range, so its extent always has positive widths. */
  type BinExtent = e: Extent | e.xmin < e.xmax && e.ymin < e.ymax witness Extent(0.0, 1.0, 0.0, 1.0)

  /** The region properties used: the centroid. */
  datatype Props = Props(centroid0: real, centroid1: real)

  /** One named field of a structured fit record: its element type and its values. */
  datatype Field = Field(dtype: DType, values: seq<real>)

  /** A structured numpy record array, as returned by the Hough ellipse fit. */
  datatype Record = Record(names: seq<string>, fields: map<string, Field>)

  /** The opaque library calls of one extraction. */
  datatype Pipeline = Pipeline(
    hist2d: (seq<real>, seq<real>) -> (Image, BinExtent),
    labelImage: Image -> Labels,
    closing: Mask -> Mask,
    regionprops: Mask -> seq<Props>,
    findBoundaries: Mask -> Mask,
    hough: (Mask, real, real) -> Record)

  // ---------------------------------------------------------------------
  // The pixel of the axis
  // ---------------------------------------------------------------------

  /**
   * `_imgcenter` before rounding: `rows / width * (-min)` on each axis. The
   * row count `img.shape[0]` scales both axes.
   */
  function CenterUnrounded(rows: nat, e: BinExtent): (real, real)
  {
    var lx, ly := e.xmax - e.xmin, e.ymax - e.ymin;
    var mx, my := rows as real / lx, rows as real / ly;
    (-mx * e.xmin, -my * e.ymin)
  }

  /** When the extent contains the origin, the unrounded centre lies within the image. */
  lemma CenterBounds(rows: nat, e: BinExtent)
    ensures e.xmin <= 0.0 <= e.xmax ==> 0.0 <= CenterUnrounded(rows, e).0 <= rows as real
    ensures e.ymin <= 0.0 <= e.ymax ==> 0.0 <= CenterUnrounded(rows, e).1 <= rows as real
  {
    AxisPixelBounded(rows, e.xmin, e.xmax);
    AxisPixelBounded(rows, e.ymin, e.ymax);
  }

  /** The unrounded centre is where the coordinate 0 falls on a `rows`-pixel axis spanning the extent. */
  lemma CenterIsAxisPixel(rows: nat, e: BinExtent)
    ensures CenterUnrounded(rows, e).0 == rows as real * (0.0 - e.xmin) / (e.xmax - e.xmin)
    ensures CenterUnrounded(rows, e).1 == rows as real * (0.0 - e.ymin) / (e.ymax - e.ymin)
  {
  }

  lemma AxisPixelBounded(rows: nat, lo: real, hi: real)
    requires lo < hi
    ensures lo <= 0.0 <= hi ==> 0.0 <= -(rows as real / (hi - lo)) * lo <= rows as real
  {
    var m := rows as real / (hi - lo);
    assert 0.0 <= m;
    if lo <= 0.0 <= hi {
      assert m * (hi - lo) == rows as real;
      assert -m * lo <= m * (hi - lo) by {
        assert m * (hi - lo) - (-m * lo) == m * hi;
      }
    }
  }

  /** `_imgcenter`: the unrounded centre rounded half to even, as integer indices. */
  function ImgCenter(img: Image, e: BinExtent): (int, int)
  {
    var u := CenterUnrounded(|img|, e);
    (RoundHalfEven(u.0), RoundHalfEven(u.1))
  }

  /** The centre indices are the unrounded centre to within half a pixel, and inside the image when the extent holds the origin. */
  lemma ImgCenterRounds(img: Image, e: BinExtent)
    ensures var c := ImgCenter(img, e);
            && -0.5 <= c.0 as real - CenterUnrounded(|img|, e).0 <= 0.5
            && -0.5 <= c.1 as real - CenterUnrounded(|img|, e).1 <= 0.5
            && (e.xmin <= 0.0 <= e.xmax ==> 0 <= c.0 <= |img|)
            && (e.ymin <= 0.0 <= e.ymax ==> 0 <= c.1 <= |img|)
  {
    CenterBounds(|img|, e);
  }

  // ---------------------------------------------------------------------
  // One extraction
  // ---------------------------------------------------------------------

  /** `labels[i, j]`, with Python's negative indices and IndexError. */
  function LabelAt(labels: Labels, i: int, j: int): Result<int, Error>
  {
    match PyIndex(i, |labels|)
    case None => Failure(IndexError)
    case Some(r) =>
      match PyIndex(j, |labels[r]|)
      case None => Failure(IndexError)
      case Some(c) => Success(labels[r][c])
  }

  /** `labels == cent_label`: the pixels carrying the label of the centre. */
  function Region(labels: Labels, cent: int): Mask
  {
    seq(|labels|, r requires 0 <= r < |labels| => seq(|labels[r]|, c requires 0 <= c < |labels[r]| => labels[r][c] == cent))
  }

  /** The label lookup fails with IndexError exactly when either index is out of range, after Python's wrap-around. */
  lemma LabelAtIndex(labels: Labels, i: int, j: int)
    ensures LabelAt(labels, i, j).Failure? ==> LabelAt(labels, i, j).error == IndexError
    ensures LabelAt(labels, i, j).Success? <==>
              PyIndex(i, |labels|).Some? && PyIndex(j, |labels[PyIndex(i, |labels|).value]|).Some?
  {
  }

  /** The region has the shape of the label image and holds exactly the pixels labelled `cent`. */
  lemma RegionMembers(labels: Labels, cent: int)
    ensures |Region(labels, cent)| == |labels|
    ensures forall r :: 0 <= r < |labels| ==> |Region(labels, cent)[r]| == |labels[r]|
    ensures forall r, c :: 0 <= r < |labels| && 0 <= c < |labels[r]| ==> (Region(labels, cent)[r][c] <==> labels[r][c] == cent)
  {
  }

  /** The centre pixel always belongs to the region selected through it. */
  lemma CenterInRegion(labels: Labels, i: int, j: int)
    requires LabelAt(labels, i, j).Success?
    ensures var r := PyIndex(i, |labels|).value;
            var c := PyIndex(j, |labels[r]|).value;
            Region(labels, LabelAt(labels, i, j).value)[r][c]
  {
    RegionMembers(labels, LabelAt(labels, i, j).value);
  }

  /** The contents of one step's slot across the seven per-step stores. */
  datatype Slot = Slot(
    img: Option<Image>,
    xind: real,
    yind: real,
    closedEllipse: Option<Mask>,
    prop: Option<Props>,
    bounds: Option<Mask>,
    result: Option<Record>)

  /**
   * What `add_ion_ellipse` leaves in a slot that held `prev`, and what it
   * returns. The stores are written in order (image, centre indices, region,
   * properties, boundaries, fit), so an IndexError keeps what was written
   * before it: a centre outside the label image stops after the indices, and
   * an empty region list stops after the region.
   */
  function Extract(prev: Slot, xs: seq<real>, ys: seq<real>, p: Pipeline): (Slot, Result<Record, Error>)
  {
    var (image, ext) := p.hist2d(xs, ys);
    var c := ImgCenter(image, ext);
    Fit(prev.(img := Some(image), xind := c.0 as real, yind := c.1 as real), p.labelImage(image), c, p)
  }

  /** What an extraction writes, in store order, and where an IndexError stops it. */
  lemma ExtractEffect(prev: Slot, xs: seq<real>, ys: seq<real>, p: Pipeline)
    ensures var (s, out) := Extract(prev, xs, ys, p);
            var (image, ext) := p.hist2d(xs, ys);
            var c := ImgCenter(image, ext);
            var labels := p.labelImage(image);
            && s.img == Some(image) && s.xind == c.0 as real && s.yind == c.1 as real
            && (out.Failure? ==> out.error == IndexError)
            && (LabelAt(labels, c.0, c.1).Failure? ==> out.Failure? && s.closedEllipse == prev.closedEllipse)
            && (LabelAt(labels, c.0, c.1).Success? ==> s.closedEllipse == Some(Region(labels, LabelAt(labels, c.0, c.1).value)))
            && (out.Success? <==> LabelAt(labels, c.0, c.1).Success? &&
                                   p.regionprops(p.closing(Region(labels, LabelAt(labels, c.0, c.1).value))) != [])
            && (out.Success? ==> s.result == Some(out.value) && s.prop.Some? && s.bounds.Some?)
            && (out.Failure? ==> s.prop == prev.prop && s.bounds == prev.bounds && s.result == prev.result)
  {
  }

  /** The part of an extraction after the image and the centre indices are stored in `s1`. */
  function Fit(s1: Slot, labels: Labels, c: (int, int), p: Pipeline): (Slot, Result<Record, Error>)
  {
    match LabelAt(labels, c.0, c.1)
    case Failure(e) => (s1, Failure(e))
    case Success(cent) =>
      var ellipse := Region(labels, cent);
      var closed := p.closing(ellipse);
      var s2 := s1.(closedEllipse := Some(ellipse));
      var props := p.regionprops(closed);
      if |props| == 0 then (s2, Failure(IndexError))
      else
        var bnd := p.findBoundaries(closed);
        var res := p.hough(bnd, props[0].centroid0 * 2.0, props[0].centroid1 * 2.0);
        (s2.(prop := Some(props[0]), bounds := Some(bnd), result := Some(res)), Success(res))
  }

  /**
   * `add_ion_ellipse(x, y)` on the slots `slots` when the counter stands at
   * `slot`: an IndexError past the last slot, otherwise the extraction.
   */
  function AddAt(slots: seq<Slot>, slot: nat, xs: seq<real>, ys: seq<real>, p: Pipeline): (r: (seq<Slot>, Result<Record, Error>))
    ensures |r.0| == |slots|
    ensures slot >= |slots| ==> r == (slots, Failure(IndexError))
    ensures slot < |slots| ==> r.0 == slots[slot := Extract(slots[slot], xs, ys, p).0] && r.1 == Extract(slots[slot], xs, ys, p).1
    ensures forall t :: 0 <= t < |slots| && t != slot ==> r.0[t] == slots[t]
  {
    if slot < |slots| then
      var (v, out) := Extract(slots[slot], xs, ys, p);
      (slots[slot := v], out)
    else (slots, Failure(IndexError))
  }

  /** The stored region is the one before closing; the fit is made on the boundary of the closed one. */
  lemma StoredRegionIsUnclosed(prev: Slot, xs: seq<real>, ys: seq<real>, p: Pipeline)
    requires Extract(prev, xs, ys, p).1.Success?
    ensures var (image, ext) := p.hist2d(xs, ys);
            var c := ImgCenter(image, ext);
            var region := Region(p.labelImage(image), LabelAt(p.labelImage(image), c.0, c.1).value);
            var props := p.regionprops(p.closing(region));
            && Extract(prev, xs, ys, p).0.closedEllipse == Some(region)
            && Extract(prev, xs, ys, p).0.prop == Some(props[0])
            && Extract(prev, xs, ys, p).0.bounds == Some(p.findBoundaries(p.closing(region)))
            && Extract(prev, xs, ys, p).1.value
               == p.hough(p.findBoundaries(p.closing(region)), props[0].centroid0 * 2.0, props[0].centroid1 * 2.0)
  {
  }

  // ---------------------------------------------------------------------
  // Flattening the fit records into a column table
  // ---------------------------------------------------------------------

  /** A table cell: a scalar, or a whole array in an object column. */
  datatype Cell = Scalar(value: real) | Obj(values: seq<real>)

  function CellValues(c: Cell): seq<real>
  {
    match c
    case Scalar(v) => [v]
    case Obj(vs) => vs
  }

  /** The flattened table: the column names, their formats, and one row per step. */
  datatype Table = Table(names: seq<string>, formats: seq<DType>, rows: seq<map<string, Cell>>)

  /** How a column's format is chosen from the lengths of its entries. */
  datatype FormatRule =
    | LastLength  // from the last step's entry alone
    | MaxLength   // from the longest entry

  /** `result[name]` of a slot: a slot never filled holds None (TypeError), a missing field raises ValueError. */
  function FieldOf(o: Option<Record>, name: string): (r: Result<Field, Error>)
    ensures r.Success? <==> o.Some? && name in o.value.fields
    ensures r.Success? ==> r.value == o.value.fields[name]
    ensures r.Failure? ==> r.error == (if o.None? then TypeError else ValueError)
  {
    match o
    case None => Failure(TypeError)
    case Some(rec) => if name in rec.fields then Success(rec.fields[name]) else Failure(ValueError)
  }

  /** The lengths `len(result[name])` over the steps, or the first error met. */
  function FieldLengths(rs: seq<Option<Record>>, name: string): (r: Result<seq<nat>, Error>)
    ensures r.Success? ==> |r.value| == |rs|
    decreases |rs|
  {
    if rs == [] then Success([])
    else
      var init := rs[..|rs| - 1];
      match FieldLengths(init, name)
      case Failure(e) => Failure(e)
      case Success(ls) =>
        match FieldOf(rs[|rs| - 1], name)
        case Failure(e) => Failure(e)
        case Success(f) => Success(ls + [|f.values|])
  }

  /** The lengths exist exactly when every step has the field, and then are its lengths in step order. */
  lemma {:induction false} FieldLengthsAt(rs: seq<Option<Record>>, name: string)
    ensures var r := FieldLengths(rs, name);
            && (r.Success? <==> forall i :: 0 <= i < |rs| ==> FieldOf(rs[i], name).Success?)
            && (r.Success? ==> forall i :: 0 <= i < |rs| ==> r.value[i] == |FieldOf(rs[i], name).value.values|)
    decreases |rs|
  {
    if rs != [] {
      var init := rs[..|rs| - 1];
      FieldLengthsAt(init, name);
      assert forall i :: 0 <= i < |init| ==> init[i] == rs[i];
    }
  }

  /** One more step: its length is appended, or its error ends the lengths. */
  lemma FieldLengthsStep(rs: seq<Option<Record>>, i: nat, name: string)
    requires i < |rs| && FieldLengths(rs[..i], name).Success?
    ensures FieldLengths(rs[..i + 1], name) == match FieldOf(rs[i], name)
              case Failure(e) => Failure(e)
              case Success(f) => Success(FieldLengths(rs[..i], name).value + [|f.values|])
  {
    assert rs[..i + 1][..i] == rs[..i];
  }

  /** The running maximum of the loop over the steps, starting from 0. */
  function MaxLen(ls: seq<nat>): (m: nat)
    ensures forall i :: 0 <= i < |ls| ==> ls[i] <= m
    ensures ls == [] ==> m == 0
    ensures ls != [] ==> exists i :: 0 <= i < |ls| && ls[i] == m
  {
    if ls == [] then 0
    else
      var m0 := MaxLen(ls[..|ls| - 1]);
      var last := ls[|ls| - 1];
      if last > m0 then last else m0
  }

  /** The running maximum after one more length. */
  lemma MaxLenStep(ls: seq<nat>, len: nat)
    ensures MaxLen(ls + [len]) == if len > MaxLen(ls) then len else MaxLen(ls)
  {
    assert (ls + [len])[..|ls|] == ls;
  }

  /**
   * A column's format: `object` when the rule's length exceeds 1, otherwise
   * the first step's element type.
   */
  function ColumnFormat(rule: FormatRule, first: DType, ls: seq<nat>): (d: DType)
    requires ls != []
    ensures d != ObjectDType ==> d == first
    ensures rule == MaxLength ==> (d == ObjectDType <==> first == ObjectDType || exists i :: 0 <= i < |ls| && ls[i] > 1)
    ensures rule == LastLength ==> (d == ObjectDType <==> first == ObjectDType || ls[|ls| - 1] > 1)
  {
    var len := match rule
      case LastLength => ls[|ls| - 1]
      case MaxLength => MaxLen(ls);
    if len > 1 then ObjectDType else first
  }

  /** The format of column `name`, or the first error met while measuring it. */
  function ColumnFormatOf(rs: seq<Option<Record>>, name: string, rule: FormatRule): (r: Result<DType, Error>)
    requires rs != []
    ensures r.Success? <==> FieldLengths(rs, name).Success?
  {
    match FieldLengths(rs, name)
    case Failure(e) => Failure(e)
    case Success(ls) =>
      FieldLengthsAt(rs, name);
      match FieldOf(rs[0], name)
      case Failure(e) => Failure(e)
      case Success(f) => Success(ColumnFormat(rule, f.dtype, ls))
  }

  /** The formats of the columns `names`, in order, or the first error met. */
  function Formats(rs: seq<Option<Record>>, names: seq<string>, rule: FormatRule): (r: Result<seq<DType>, Error>)
    requires rs != []
    ensures r.Success? ==> |r.value| == |names|
    decreases |names|
  {
    if names == [] then Success([])
    else
      var init := names[..|names| - 1];
      match Formats(rs, init, rule)
      case Failure(e) => Failure(e)
      case Success(fs) =>
        match ColumnFormatOf(rs, names[|names| - 1], rule)
        case Failure(e) => Failure(e)
        case Success(d) => Success(fs + [d])
  }

  /** The formats succeed exactly when every column's does, and then hold each column's format in order. */
  lemma {:induction false} FormatsAt(rs: seq<Option<Record>>, names: seq<string>, rule: FormatRule)
    requires rs != []
    ensures var r := Formats(rs, names, rule);
            && (r.Success? <==> forall k :: 0 <= k < |names| ==> ColumnFormatOf(rs, names[k], rule).Success?)
            && (r.Success? ==> forall k :: 0 <= k < |names| ==> ColumnFormatOf(rs, names[k], rule) == Success(r.value[k]))
    decreases |names|
  {
    if names != [] {
      var n := |names| - 1;
      var init := names[..n];
      FormatsAt(rs, init, rule);
      assert forall k :: 0 <= k < n ==> init[k] == names[k];
      var r := Formats(rs, names, rule);
      if r.Success? {
        var fs := Formats(rs, init, rule).value;
        assert r.value == fs + [ColumnFormatOf(rs, names[n], rule).value];
        assert forall k :: 0 <= k < n ==> r.value[k] == fs[k];
      }
    }
  }

  /** `results_flat[name][i] = result[name]`: an object cell takes the array, a scalar cell needs exactly one value. */
  function CellOf(format: DType, f: Field): (r: Result<Cell, Error>)
    ensures r.Success? <==> format == ObjectDType || |f.values| == 1
    ensures r.Success? ==> CellValues(r.value) == f.values
    ensures r.Failure? ==> r.error == ValueError
  {
    if format == ObjectDType then Success(Obj(f.values))
    else if |f.values| == 1 then Success(Scalar(f.values[0]))
    else Failure(ValueError)
  }

  function CellAt(o: Option<Record>, name: string, format: DType): (r: Result<Cell, Error>)
    ensures r.Success? ==> FieldOf(o, name).Success? && CellValues(r.value) == FieldOf(o, name).value.values
  {
    match FieldOf(o, name)
    case Failure(e) => Failure(e)
    case Success(f) => CellOf(format, f)
  }

  /** One flattened row: the cells of `names` under `formats`, or the first error met. */
  function FillRow(o: Option<Record>, names: seq<string>, formats: seq<DType>): (r: Result<map<string, Cell>, Error>)
    requires |formats| == |names|
    decreases |names|
  {
    if names == [] then Success(map[])
    else
      var n := |names| - 1;
      match FillRow(o, names[..n], formats[..n])
      case Failure(e) => Failure(e)
      case Success(row) =>
        match CellAt(o, names[n], formats[n])
        case Failure(e) => Failure(e)
        case Success(c) => Success(row[names[n] := c])
  }

  /** A flattened row holds, under each name, exactly the values of that field of the record. */
  lemma {:induction false} FillRowCells(o: Option<Record>, names: seq<string>, formats: seq<DType>)
    requires |formats| == |names| && FillRow(o, names, formats).Success?
    ensures forall k :: 0 <= k < |names| ==>
              && names[k] in FillRow(o, names, formats).value
              && FieldOf(o, names[k]).Success?
              && CellValues(FillRow(o, names, formats).value[names[k]]) == FieldOf(o, names[k]).value.values
  {
    if names != [] {
      var n := |names| - 1;
      FillRowCells(o, names[..n], formats[..n]);
      var row := FillRow(o, names[..n], formats[..n]).value;
      var c := CellAt(o, names[n], formats[n]).value;
      assert FillRow(o, names, formats).value == row[names[n] := c];
      forall k | 0 <= k < n
        ensures names[k] == names[..n][k]
      {
      }
    }
  }

  /** A row can be flattened when every one of its cells can. */
  lemma {:induction false} FillRowSucceeds(o: Option<Record>, names: seq<string>, formats: seq<DType>)
    requires |formats| == |names|
    requires forall k :: 0 <= k < |names| ==> CellAt(o, names[k], formats[k]).Success?
    ensures FillRow(o, names, formats).Success?
  {
    if names != [] {
      var n := |names| - 1;
      forall k | 0 <= k < n
        ensures CellAt(o, names[..n][k], formats[..n][k]).Success?
      {
        assert names[..n][k] == names[k] && formats[..n][k] == formats[k];
      }
      FillRowSucceeds(o, names[..n], formats[..n]);
    }
  }

  /** All flattened rows, in step order, or the first error met. */
  function FillRows(rs: seq<Option<Record>>, names: seq<string>, formats: seq<DType>): (r: Result<seq<map<string, Cell>>, Error>)
    requires |formats| == |names|
    ensures r.Success? ==> |r.value| == |rs|
    decreases |rs|
  {
    if rs == [] then Success([])
    else
      var n := |rs| - 1;
      match FillRows(rs[..n], names, formats)
      case Failure(e) => Failure(e)
      case Success(rows) =>
        match FillRow(rs[n], names, formats)
        case Failure(e) => Failure(e)
        case Success(row) => Success(rows + [row])
  }

  /** Row `i` of the flattened rows is step `i`'s record flattened. */
  lemma {:induction false} FillRowsAt(rs: seq<Option<Record>>, names: seq<string>, formats: seq<DType>)
    requires |formats| == |names| && FillRows(rs, names, formats).Success?
    ensures forall i :: 0 <= i < |rs| ==> FillRow(rs[i], names, formats) == Success(FillRows(rs, names, formats).value[i])
  {
    if rs != [] {
      var n := |rs| - 1;
      FillRowsAt(rs[..n], names, formats);
      forall i | 0 <= i < n
        ensures rs[i] == rs[..n][i]
      {
      }
    }
  }

  /** The rows can be flattened when every one of them can. */
  lemma {:induction false} FillRowsSucceeds(rs: seq<Option<Record>>, names: seq<string>, formats: seq<DType>)
    requires |formats| == |names|
    requires forall i :: 0 <= i < |rs| ==> FillRow(rs[i], names, formats).Success?
    ensures FillRows(rs, names, formats).Success?
  {
    if rs != [] {
      var n := |rs| - 1;
      forall i | 0 <= i < n
        ensures FillRow(rs[..n][i], names, formats).Success?
      {
        assert rs[..n][i] == rs[i];
      }
      FillRowsSucceeds(rs[..n], names, formats);
    }
  }

  /**
   * `_save_results`: the first step's record names the columns (IndexError
   * with no steps, AttributeError when the first slot was never filled),
   * each column gets a format by `rule`, and every step becomes one row.
   */
  function FlattenResults(rs: seq<Option<Record>>, rule: FormatRule): (r: Result<Table, Error>)
    ensures rs == [] ==> r == Failure(IndexError)
    ensures rs != [] && rs[0].None? ==> r == Failure(AttributeError)
    ensures r.Success? ==> rs != [] && rs[0].Some? && r.value.names == rs[0].value.names
    ensures r.Success? ==> |r.value.formats| == |r.value.names| && |r.value.rows| == |rs|
  {
    if rs == [] then Failure(IndexError)
    else if rs[0].None? then Failure(AttributeError)
    else
      var names := rs[0].value.names;
      match Formats(rs, names, rule)
      case Failure(e) => Failure(e)
      case Success(fs) =>
        match FillRows(rs, names, fs)
        case Failure(e) => Failure(e)
        case Success(rows) => Success(Table(names, fs, rows))
  }

  /** Row `i`, column `name` of the table holds exactly the values of `results[i][name]`. */
  lemma FlattenedCell(rs: seq<Option<Record>>, rule: FormatRule, i: nat, k: nat)
    requires FlattenResults(rs, rule).Success?
    requires i < |rs| && k < |rs[0].value.names|
    ensures var t, name := FlattenResults(rs, rule).value, rs[0].value.names[k];
            && name in t.rows[i]
            && rs[i].Some? && name in rs[i].value.fields
            && CellValues(t.rows[i][name]) == rs[i].value.fields[name].values
  {
    var names := rs[0].value.names;
    var fs := Formats(rs, names, rule).value;
    FillRowsAt(rs, names, fs);
    FillRowCells(rs[i], names, fs);
  }

  /** With the longest-entry rule a column is `object` exactly when some step's entry has more than one value. */
  lemma ObjectColumns(rs: seq<Option<Record>>, k: nat)
    requires FlattenResults(rs, MaxLength).Success?
    requires k < |rs[0].value.names|
    ensures forall i :: 0 <= i < |rs| ==> rs[i].Some? && rs[0].value.names[k] in rs[i].value.fields
    ensures var t, name := FlattenResults(rs, MaxLength).value, rs[0].value.names[k];
            t.formats[k] == ObjectDType <==>
              rs[0].value.fields[name].dtype == ObjectDType ||
              exists i :: 0 <= i < |rs| && |rs[i].value.fields[name].values| > 1
  {
    var names := rs[0].value.names;
    var name := names[k];
    FormatsAt(rs, names, MaxLength);
    var fs := Formats(rs, names, MaxLength).value;
    assert ColumnFormatOf(rs, name, MaxLength) == Success(fs[k]);
    FieldLengthsAt(rs, name);
    var ls := FieldLengths(rs, name).value;
    assert fs[k] == ColumnFormat(MaxLength, rs[0].value.fields[name].dtype, ls);
    forall i | 0 <= i < |rs|
      ensures rs[i].Some? && name in rs[i].value.fields && ls[i] == |rs[i].value.fields[name].values|
    {
      assert FieldOf(rs[i], name).Success?;
    }
  }

  /**
   * With the longest-entry rule flattening succeeds whenever every step was
   * filled with a record carrying the first step's fields, none of them
   * empty.
   */
  lemma FlattenTotal(rs: seq<Option<Record>>)
    requires rs != []
    requires forall i :: 0 <= i < |rs| ==> rs[i].Some?
    requires forall i, n :: 0 <= i < |rs| && n in rs[0].value.names ==> n in rs[i].value.fields
    requires forall i, n :: 0 <= i < |rs| && n in rs[i].value.fields ==> rs[i].value.fields[n].values != []
    ensures FlattenResults(rs, MaxLength).Success?
  {
    var names := rs[0].value.names;
    forall k | 0 <= k < |names|
      ensures ColumnFormatOf(rs, names[k], MaxLength).Success?
    {
      forall i | 0 <= i < |rs|
        ensures FieldOf(rs[i], names[k]).Success?
      {
        assert names[k] in rs[0].value.names;
      }
      FieldLengthsAt(rs, names[k]);
    }
    FormatsAt(rs, names, MaxLength);
    var fs := Formats(rs, names, MaxLength).value;
    forall i | 0 <= i < |rs|
      ensures FillRow(rs[i], names, fs).Success?
    {
      forall k | 0 <= k < |names|
        ensures CellAt(rs[i], names[k], fs[k]).Success?
      {
        var name := names[k];
        assert name in rs[0].value.names;
        FieldLengthsAt(rs, name);
        var ls := FieldLengths(rs, name).value;
        assert ColumnFormatOf(rs, name, MaxLength) == Success(fs[k]);
        assert fs[k] == ColumnFormat(MaxLength, rs[0].value.fields[name].dtype, ls);
        assert ls[i] == |rs[i].value.fields[name].values|;
        assert rs[i].value.fields[name].values != [];
      }
      FillRowSucceeds(rs[i], names, fs);
    }
    FillRowsSucceeds(rs, names, fs);
  }

  /** The ragged column: a float field with two values `v0`, `v1` at step 0 and one value `v2` at step 1. */
  function RaggedResults(v0: real, v1: real, v2: real): seq<Option<Record>>
  {
    var f := NumericDType("float64");
    [Some(Record(["a"], map["a" := Field(f, [v0, v1])])),
     Some(Record(["a"], map["a" := Field(f, [v2])]))]
  }

  /** The lengths of the ragged column are 2 then 1. */
  lemma RaggedLengths(v0: real, v1: real, v2: real)
    ensures FieldLengths(RaggedResults(v0, v1, v2), "a") == Success([2, 1])
  {
    var rs := RaggedResults(v0, v1, v2);
    assert FieldOf(rs[0], "a").value.values == [v0, v1];
    assert FieldOf(rs[1], "a").value.values == [v2];
    FieldLengthsAt(rs, "a");
    var ls := FieldLengths(rs, "a");
    assert ls.Success? && |ls.value| == 2;
    assert ls.value[0] == 2 && ls.value[1] == 1;
    assert ls.value == [2, 1];
  }

  /** The last-length rule keeps the float type for the ragged column; the longest-entry rule makes it `object`. */
  lemma RaggedFormats(v0: real, v1: real, v2: real)
    ensures Formats(RaggedResults(v0, v1, v2), ["a"], LastLength) == Success([NumericDType("float64")])
    ensures Formats(RaggedResults(v0, v1, v2), ["a"], MaxLength) == Success([ObjectDType])
  {
    var rs := RaggedResults(v0, v1, v2);
    RaggedLengths(v0, v1, v2);
    assert FieldOf(rs[0], "a").value.dtype == NumericDType("float64");
    assert MaxLen([2, 1][..1]) == 2;
    assert ColumnFormatOf(rs, "a", LastLength) == Success(NumericDType("float64"));
    assert ColumnFormatOf(rs, "a", MaxLength) == Success(ObjectDType);
    assert ["a"][..0] == [] && ["a"][..1] == ["a"] && ["a"][0] == "a";
    assert Formats(rs, [], LastLength) == Success([]) && Formats(rs, [], MaxLength) == Success([]);
    FormatsStep(rs, ["a"], 0, LastLength);
    FormatsStep(rs, ["a"], 0, MaxLength);
    assert [] + [NumericDType("float64")] == [NumericDType("float64")] && [] + [ObjectDType] == [ObjectDType];
  }

  /**
   * Choosing the format from the last step's length types the ragged column
   * as float, so storing step 0's two values raises ValueError; choosing it
   * from the longest entry makes the column `object` and flattening succeeds.
   */
  lemma LastLengthRejectsRagged(v0: real, v1: real, v2: real)
    ensures FlattenResults(RaggedResults(v0, v1, v2), LastLength) == Failure(ValueError)
    ensures FlattenResults(RaggedResults(v0, v1, v2), MaxLength).Success?
    ensures FlattenResults(RaggedResults(v0, v1, v2), MaxLength).value.formats == [ObjectDType]
  {
    RaggedFormats(v0, v1, v2);
    RaggedLastFails(v0, v1, v2);
    RaggedMaxFlattens(v0, v1, v2);
  }

  /** Under the float format, step 0's two values cannot be stored. */
  lemma RaggedLastFails(v0: real, v1: real, v2: real)
    ensures FillRows(RaggedResults(v0, v1, v2), ["a"], [NumericDType("float64")]) == Failure(ValueError)
  {
    var rs := RaggedResults(v0, v1, v2);
    var f := NumericDType("float64");
    assert FieldOf(rs[0], "a").value.values == [v0, v1];
    assert CellAt(rs[0], "a", f) == Failure(ValueError);
    assert ["a"][..0] == [] && [f][..0] == [];
    assert FillRow(rs[0], ["a"], [f]) == Failure(ValueError);
    assert rs[..1][..0] == [] && rs[..1][0] == rs[0];
    assert FillRows(rs[..1], ["a"], [f]) == Failure(ValueError);
    FillRowsExtend(rs, ["a"], [f], 1);
  }

  /** The ragged results meet the conditions under which the longest-entry rule always flattens. */
  lemma RaggedMaxFlattens(v0: real, v1: real, v2: real)
    ensures FlattenResults(RaggedResults(v0, v1, v2), MaxLength).Success?
  {
    var rs := RaggedResults(v0, v1, v2);
    assert rs[0].value.names == ["a"];
    assert rs[0].value.fields.Keys == {"a"} && rs[1].value.fields.Keys == {"a"};
    assert rs[0].value.fields["a"].values != [] && rs[1].value.fields["a"].values != [];
    FlattenTotal(rs);
  }

  // ---------------------------------------------------------------------
  // The per-step stores
  // ---------------------------------------------------------------------

  class PlasmaIons {
    const params: PlasmaParams
    const img: array<Option<Image>>
    const xind: array<real>
    const yind: array<real>
    const closedEllipse: array<Option<Mask>>
    const prop: array<Option<Props>>
    const bounds: array<Option<Mask>>
    const results: array<Option<Record>>
    /** The next slot used when no step index is given. */
    var stepInd: nat
    var resultsFlat: Option<Table>
    var stamp: Option<Time>

    /** One slot per slice in every store. */
    ghost predicate Valid()
    {
      && img.Length == params.NumSteps() && xind.Length == params.NumSteps() && yind.Length == params.NumSteps()
      && closedEllipse.Length == params.NumSteps() && prop.Length == params.NumSteps()
      && bounds.Length == params.NumSteps() && results.Length == params.NumSteps()
      && xind != yind && closedEllipse != bounds
    }

    /** Slot `s` across the seven stores. */
    ghost function SlotAt(s: nat): Slot
      requires Valid() && s < img.Length
      reads img, xind, yind, closedEllipse, prop, bounds, results
    {
      Slot(img[s], xind[s], yind[s], closedEllipse[s], prop[s], bounds[s], results[s])
    }

    /** All slots, in step order. */
    ghost function Slots(): (r: seq<Slot>)
      requires Valid()
      reads img, xind, yind, closedEllipse, prop, bounds, results
      ensures |r| == img.Length && forall t :: 0 <= t < |r| ==> r[t] == SlotAt(t)
    {
      seq(img.Length, t requires 0 <= t < img.Length reads img, xind, yind, closedEllipse, prop, bounds, results => SlotAt(t))
    }

    /** Empty object stores, uninitialised index stores, and the counter at 0. */
    constructor (params: PlasmaParams)
      ensures this.params == params && Valid()
      ensures stepInd == 0 && resultsFlat == None
      ensures forall s :: 0 <= s < img.Length ==>
                && SlotAt(s).img == None && SlotAt(s).closedEllipse == None && SlotAt(s).prop == None
                && SlotAt(s).bounds == None && SlotAt(s).result == None
      ensures fresh(img) && fresh(xind) && fresh(yind) && fresh(closedEllipse)
      ensures fresh(prop) && fresh(bounds) && fresh(results)
      ensures Timestamp() == Failure(RuntimeError(NoTimestamp))
    {
      var n := params.NumSteps();
      this.params := params;
      stepInd := 0;
      img := new Option<Image>[n](_ => None);
      xind := new real[n];
      yind := new real[n];
      closedEllipse := new Option<Mask>[n](_ => None);
      prop := new Option<Props>[n](_ => None);
      bounds := new Option<Mask>[n](_ => None);
      results := new Option<Record>[n](_ => None);
      resultsFlat := None;
      stamp := None;
    }

    /**
     * `add_ion_ellipse(x, y, step_ind)`: without a step index the counter
     * supplies the slot and is advanced first, even if the slot then turns
     * out to be out of range. Only that one slot of the stores changes.
     */
    method AddIonEllipse(xs: seq<real>, ys: seq<real>, stepArg: Option<int>, p: Pipeline) returns (r: Result<Record, Error>)
      requires Valid()
      modifies this, img, xind, yind, closedEllipse, prop, bounds, results
      ensures Valid() && resultsFlat == old(resultsFlat) && stamp == old(stamp)
      ensures stepInd == if stepArg.None? then old(stepInd) + 1 else old(stepInd)
      ensures var slot := if stepArg.None? then old(stepInd) else stepArg.value;
              if PyIndex(slot, img.Length).None? then
                r == Failure(IndexError) && Slots() == old(Slots())
              else
                var s := PyIndex(slot, img.Length).value;
                var (v, out) := Extract(old(Slots())[s], xs, ys, p);
                Slots() == old(Slots())[s := v] && r == out
      ensures stepArg.None? ==> (Slots(), r) == AddAt(old(Slots()), old(stepInd), xs, ys, p)
    {
      var slot: int;
      if stepArg.None? {
        slot := stepInd;
        stepInd := stepInd + 1;
      } else {
        slot := stepArg.value;
      }
      var si := PyIndex(slot, img.Length);
      if si.None? {
        return Failure(IndexError);
      }
      r := ExtractInto(si.value, xs, ys, p);
    }

    /**
     * The writes of one extraction into slot `s`, in the order of
     * lines 165-209; an IndexError leaves what was written before it.
     */
    method ExtractInto(s: nat, xs: seq<real>, ys: seq<real>, p: Pipeline) returns (r: Result<Record, Error>)
      requires Valid() && s < img.Length
      modifies img, xind, yind, closedEllipse, prop, bounds, results
      ensures Valid()
      ensures var (v, out) := Extract(old(Slots())[s], xs, ys, p);
              Slots() == old(Slots())[s := v] && r == out
    {
      var (image, ext) := p.hist2d(xs, ys);
      StoreImage(s, image);
      var c := ImgCenter(image, ext);
      StoreCenter(s, c.0 as real, c.1 as real);
      var labels := p.labelImage(image);
      r := FitInto(s, labels, c, p);
    }

    /** The writes after the centre indices: the region, then the properties, boundaries and fit. */
    method FitInto(s: nat, labels: Labels, c: (int, int), p: Pipeline) returns (r: Result<Record, Error>)
      requires Valid() && s < img.Length
      modifies closedEllipse, prop, bounds, results
      ensures Valid()
      ensures var (v, out) := Fit(old(Slots())[s], labels, c, p);
              Slots() == old(Slots())[s := v] && r == out
    {
      var cent := LabelAt(labels, c.0, c.1);
      if cent.Failure? {
        assert Slots() == old(Slots())[s := old(Slots())[s]];
        return Failure(cent.error);
      }
      var ellipse := Region(labels, cent.value);
      var closed := p.closing(ellipse);
      StoreEllipse(s, ellipse);
      var props := p.regionprops(closed);
      if |props| == 0 {
        return Failure(IndexError);
      }
      var bnd := p.findBoundaries(closed);
      var res := p.hough(bnd, props[0].centroid0 * 2.0, props[0].centroid1 * 2.0);
      ghost var s2 := Slots()[s];
      StoreFit(s, props[0], bnd, res);
      assert Slots() == old(Slots())[s := s2.(prop := Some(props[0]), bounds := Some(bnd), result := Some(res))];
      return Success(res);
    }

    /** `self._img[step_ind] = img`. */
    method StoreImage(s: nat, image: Image)
      requires Valid() && s < img.Length
      modifies img
      ensures Valid() && Slots() == old(Slots())[s := old(Slots())[s].(img := Some(image))]
    {
      img[s] := Some(image);
    }

    /** `self._xind[step_ind]`, `self._yind[step_ind]`: the centre pixel. */
    method StoreCenter(s: nat, xi: real, yi: real)
      requires Valid() && s < img.Length
      modifies xind, yind
      ensures Valid() && Slots() == old(Slots())[s := old(Slots())[s].(xind := xi, yind := yi)]
    {
      xind[s] := xi;
      yind[s] := yi;
    }

    /** `self._closed_ellipse[step_ind] = ellipse`. */
    method StoreEllipse(s: nat, m: Mask)
      requires Valid() && s < img.Length
      modifies closedEllipse
      ensures Valid() && Slots() == old(Slots())[s := old(Slots())[s].(closedEllipse := Some(m))]
    {
      closedEllipse[s] := Some(m);
    }

    /** `self._prop`, `self._bounds` and `self._results` at the step. */
    method StoreFit(s: nat, pr: Props, bnd: Mask, res: Record)
      requires Valid() && s < img.Length
      modifies prop, bounds, results
      ensures Valid() && Slots() == old(Slots())[s := old(Slots())[s].(prop := Some(pr), bounds := Some(bnd), result := Some(res))]
    {
      prop[s] := Some(pr);
      bounds[s] := Some(bnd);
      results[s] := Some(res);
    }

    /**
     * `_save_results` with each column's format chosen from its longest
     * entry: on success the table is stored, on an error nothing changes.
     */
    method SaveResults() returns (r: Outcome<Error>)
      requires Valid()
      modifies this
      ensures stepInd == old(stepInd) && stamp == old(stamp)
      ensures r.Pass? <==> FlattenResults(results[..], MaxLength).Success?
      ensures r.Pass? ==> resultsFlat == Some(FlattenResults(results[..], MaxLength).value)
      ensures r.Fail? ==> r.error == FlattenResults(results[..], MaxLength).error && resultsFlat == old(resultsFlat)
    {
      var rs := results[..];
      if |rs| == 0 {
        return Fail(IndexError);
      }
      if rs[0].None? {
        return Fail(AttributeError);
      }
      var names := rs[0].value.names;
      var formats := LayoutFormats(rs, names);
      if formats.Failure? {
        return Fail(formats.error);
      }
      var rows := FillTable(rs, names, formats.value);
      if rows.Failure? {
        return Fail(rows.error);
      }
      resultsFlat := Some(Table(names, formats.value, rows.value));
      return Pass;
    }

    /** The `timestamp` property inherited from the Timestamp base class. */
    function Timestamp(): Result<Time, Error>
      reads this
    {
      ReadStamp(stamp)
    }

    /** `_set_timestamp`: stamps both the ions and their plasma parameters. */
    method SetTimestamp(t: Time)
      modifies this, params
      ensures stamp == Some(t) && Timestamp() == Success(t)
      ensures params.Timestamp() == Some(t)
      ensures stepInd == old(stepInd) && resultsFlat == old(resultsFlat)
    {
      stamp := Some(t);
      params.SetTimestamp(t);
    }
  }

  // ---------------------------------------------------------------------
  // The loops of `_save_results`
  // ---------------------------------------------------------------------

  /** The inner loop over the steps: the longest `len(result[name])`, or the first error met. */
  method MeasureColumn(rs: seq<Option<Record>>, name: string) returns (r: Result<nat, Error>)
    ensures r.Success? <==> FieldLengths(rs, name).Success?
    ensures r.Success? ==> r.value == MaxLen(FieldLengths(rs, name).value)
    ensures r.Failure? ==> r.error == FieldLengths(rs, name).error
  {
    var maxlen: nat := 0;
    ghost var ls: seq<nat> := [];
    for i := 0 to |rs|
      invariant FieldLengths(rs[..i], name) == Success(ls)
      invariant maxlen == MaxLen(ls)
    {
      var f := FieldOf(rs[i], name);
      FieldLengthsStep(rs, i, name);
      if f.Failure? {
        FieldLengthsExtend(rs, i + 1, name);
        return Failure(f.error);
      }
      var len := |f.value.values|;
      MaxLenStep(ls, len);
      if len > maxlen {
        maxlen := len;
      }
      ls := ls + [len];
    }
    assert rs[..|rs|] == rs;
    return Success(maxlen);
  }

  /** The outer loop over the names: the column formats, from the longest entry of each column. */
  method LayoutFormats(rs: seq<Option<Record>>, names: seq<string>) returns (r: Result<seq<DType>, Error>)
    requires rs != []
    ensures r == Formats(rs, names, MaxLength)
  {
    var formats: seq<DType> := [];
    for k := 0 to |names|
      invariant Formats(rs, names[..k], MaxLength) == Success(formats)
    {
      var name := names[k];
      FormatsStep(rs, names, k, MaxLength);
      var maxlen := MeasureColumn(rs, name);
      if maxlen.Failure? {
        FormatsExtend(rs, names, k + 1, MaxLength);
        return Failure(maxlen.error);
      }
      FieldLengthsAt(rs, name);
      var first := FieldOf(rs[0], name);
      var format := if maxlen.value > 1 then ObjectDType else first.value.dtype;
      formats := formats + [format];
    }
    assert names[..|names|] == names;
    return Success(formats);
  }

  /** One row of the fill loop: `results_flat[name][i] = result[name]` for every name. */
  method FillRowLoop(o: Option<Record>, names: seq<string>, formats: seq<DType>) returns (r: Result<map<string, Cell>, Error>)
    requires |formats| == |names|
    ensures r == FillRow(o, names, formats)
  {
    var row: map<string, Cell> := map[];
    for k := 0 to |names|
      invariant FillRow(o, names[..k], formats[..k]) == Success(row)
    {
      var c := CellAt(o, names[k], formats[k]);
      assert names[..k + 1][..k] == names[..k] && formats[..k + 1][..k] == formats[..k];
      if c.Failure? {
        FillRowExtend(o, names, formats, k + 1);
        return Failure(c.error);
      }
      row := row[names[k] := c.value];
    }
    assert names[..|names|] == names && formats[..|formats|] == formats;
    return Success(row);
  }

  /** The fill loop over the steps. */
  method FillTable(rs: seq<Option<Record>>, names: seq<string>, formats: seq<DType>) returns (r: Result<seq<map<string, Cell>>, Error>)
    requires |formats| == |names|
    ensures r == FillRows(rs, names, formats)
  {
    var rows: seq<map<string, Cell>> := [];
    for i := 0 to |rs|
      invariant FillRows(rs[..i], names, formats) == Success(rows)
    {
      var row := FillRowLoop(rs[i], names, formats);
      assert rs[..i + 1][..i] == rs[..i];
      if row.Failure? {
        FillRowsExtend(rs, names, formats, i + 1);
        return Failure(row.error);
      }
      rows := rows + [row.value];
    }
    assert rs[..|rs|] == rs;
    return Success(rows);
  }

  // ---------------------------------------------------------------------
  // An error in a prefix is the error of the whole
  // ---------------------------------------------------------------------

  lemma {:induction false} FieldLengthsExtend(rs: seq<Option<Record>>, i: nat, name: string)
    requires i <= |rs| && FieldLengths(rs[..i], name).Failure?
    ensures FieldLengths(rs, name) == FieldLengths(rs[..i], name)
    decreases |rs| - i
  {
    if i < |rs| {
      assert rs[..i + 1][..i] == rs[..i];
      FieldLengthsExtend(rs, i + 1, name);
    } else {
      assert rs[..i] == rs;
    }
  }

  /** One more column after a run of columns that all got a format. */
  lemma FormatsStep(rs: seq<Option<Record>>, names: seq<string>, k: nat, rule: FormatRule)
    requires rs != [] && k < |names| && Formats(rs, names[..k], rule).Success?
    ensures Formats(rs, names[..k + 1], rule)
              == match ColumnFormatOf(rs, names[k], rule)
                 case Failure(e) => Failure(e)
                 case Success(d) => Success(Formats(rs, names[..k], rule).value + [d])
  {
    assert names[..k + 1][..k] == names[..k] && names[..k + 1][k] == names[k];
  }

  lemma {:induction false} FormatsExtend(rs: seq<Option<Record>>, names: seq<string>, k: nat, rule: FormatRule)
    requires rs != [] && k <= |names| && Formats(rs, names[..k], rule).Failure?
    ensures Formats(rs, names, rule) == Formats(rs, names[..k], rule)
    decreases |names| - k
  {
    if k < |names| {
      assert names[..k + 1][..k] == names[..k];
      FormatsExtend(rs, names, k + 1, rule);
    } else {
      assert names[..k] == names;
    }
  }

  lemma {:induction false} FillRowExtend(o: Option<Record>, names: seq<string>, formats: seq<DType>, k: nat)
    requires |formats| == |names| && k <= |names| && FillRow(o, names[..k], formats[..k]).Failure?
    ensures FillRow(o, names, formats) == FillRow(o, names[..k], formats[..k])
    decreases |names| - k
  {
    if k < |names| {
      assert names[..k + 1][..k] == names[..k] && formats[..k + 1][..k] == formats[..k];
      FillRowExtend(o, names, formats, k + 1);
    } else {
      assert names[..k] == names && formats[..k] == formats;
    }
  }

  lemma {:induction false} FillRowsExtend(rs: seq<Option<Record>>, names: seq<string>, formats: seq<DType>, i: nat)
    requires |formats| == |names| && i <= |rs| && FillRows(rs[..i], names, formats).Failure?
    ensures FillRows(rs, names, formats) == FillRows(rs[..i], names, formats)
    decreases |rs| - i
  {
    if i < |rs| {
      assert rs[..i + 1][..i] == rs[..i];
      FillRowsExtend(rs, names, formats, i + 1);
    } else {
      assert rs[..i] == rs;
    }
  }
}
