/** The record decoder: `convert_line` splits a normalised feed line on `|`
    and zips the pieces, in order, onto the six attribute names. */
module Decode {
  import opened Records

  /** `sep.join(pieces)` */
  function Join(pieces: seq<string>, sep: char): string
    decreases |pieces|
  {
    if pieces == [] then []
    else if |pieces| == 1 then pieces[0]
    else pieces[0] + [sep] + Join(pieces[1..], sep)
  }

  /** Gluing `x` onto the front of the first piece glues it onto the front of
      the joined string. */
  lemma JoinPrepend(x: string, pieces: seq<string>, sep: char)
    requires |pieces| >= 1
    ensures Join([x + pieces[0]] + pieces[1..], sep) == x + Join(pieces, sep)
  {
    var glued := [x + pieces[0]] + pieces[1..];
    assert glued[1..] == pieces[1..];
  }

  /** `s.split(sep)`: the pieces between the separators. `k` separators
      give `k + 1` pieces, so even the empty line gives one (empty) piece. */
  function Split(s: string, sep: char): (pieces: seq<string>)
    ensures |pieces| >= 1
    decreases |s|
  {
    if s == [] then [[]]
    else
      var rest := Split(s[1..], sep);
      if s[0] == sep then [[]] + rest
      else [[s[0]] + rest[0]] + rest[1..]
  }

  /** No piece holds a separator, and the pieces join back to the string. */
  lemma {:induction false} SplitPieces(s: string, sep: char)
    ensures forall j :: 0 <= j < |Split(s, sep)| ==> sep !in Split(s, sep)[j]
    ensures Join(Split(s, sep), sep) == s
    decreases |s|
  {
    if s != [] {
      var rest := Split(s[1..], sep);
      SplitPieces(s[1..], sep);
      var pieces := Split(s, sep);
      if s[0] == sep {
        assert pieces[1..] == rest;
        assert s == [sep] + s[1..];
      } else {
        JoinPrepend([s[0]], rest, sep);
        assert s == [s[0]] + s[1..];
        assert forall j :: 1 <= j < |pieces| ==> pieces[j] == rest[j];
      }
    }
  }

  /** A separator-free head splits off as the first piece. */
  lemma {:induction false} SplitPrefix(p: string, rest: string, sep: char)
    requires sep !in p
    ensures Split(p + [sep] + rest, sep) == [p] + Split(rest, sep)
    decreases |p|
  {
    var s := p + [sep] + rest;
    if p == [] {
      assert s[0] == sep && s[1..] == rest;
    } else {
      assert s[0] == p[0];
      assert s[1..] == p[1..] + [sep] + rest;
      SplitPrefix(p[1..], rest, sep);
      assert [p[0]] + p[1..] == p;
    }
  }

  /** A separator-free string is one piece. */
  lemma {:induction false} SplitNoSeparator(p: string, sep: char)
    requires sep !in p
    ensures Split(p, sep) == [p]
    decreases |p|
  {
    if p != [] {
      SplitNoSeparator(p[1..], sep);
      assert [p[0]] + p[1..] == p;
    }
  }

  /** Splitting undoes joining: separator-free pieces come back as they were. */
  lemma {:induction false} SplitJoin(pieces: seq<string>, sep: char)
    requires |pieces| >= 1
    requires forall j :: 0 <= j < |pieces| ==> sep !in pieces[j]
    ensures Split(Join(pieces, sep), sep) == pieces
    decreases |pieces|
  {
    if |pieces| == 1 {
      SplitNoSeparator(pieces[0], sep);
    } else {
      SplitJoin(pieces[1..], sep);
      SplitPrefix(pieces[0], Join(pieces[1..], sep), sep);
      assert [pieces[0]] + pieces[1..] == pieces;
    }
  }

  /** The attribute names `convert_line` zips the pieces onto, in order. */
  const Columns: seq<Field> := [Ein, Name, City, State, Country, DeductabilityCode]

  /** `zip(names, values)`: the pairs up to the end of the shorter list. */
  function Zip(names: seq<Field>, values: seq<string>): (items: Data)
    ensures |items| == if |names| < |values| then |names| else |values|
  {
    if names == [] || values == [] then []
    else [(names[0], values[0])] + Zip(names[1..], values[1..])
  }

  /** Each pair holds the name and the value at its own position. */
  lemma {:induction false} ZipItems(names: seq<Field>, values: seq<string>)
    ensures forall j :: 0 <= j < |Zip(names, values)| ==> Zip(names, values)[j] == (names[j], values[j])
  {
    if names != [] && values != [] {
      ZipItems(names[1..], values[1..]);
    }
  }

  /** The identifier of a feed line: what precedes its first `|`, or the
      whole line when it has none. */
  function LineKey(line: string): string {
    if line == [] || line[0] == '|' then [] else [line[0]] + LineKey(line[1..])
  }

  /** The identifier is a prefix of the line without a `|`, and a `|`
      follows it unless it is the whole line. */
  lemma {:induction false} LineKeyShape(line: string)
    ensures LineKey(line) <= line && '|' !in LineKey(line)
    ensures |LineKey(line)| < |line| ==> line[|LineKey(line)|] == '|'
  {
    if line != [] && line[0] != '|' {
      LineKeyShape(line[1..]);
    }
  }

  /** The identifier is the first piece of the split line, `data['ein']`. */
  lemma {:induction false} LineKeyFirstPiece(line: string)
    ensures Split(line, '|')[0] == LineKey(line)
  {
    if line != [] && line[0] != '|' {
      LineKeyFirstPiece(line[1..]);
    }
  }

  /** `convert_line`: `dict(zip(('ein', 'name', 'city', 'state', 'country',
      'deductability_code'), line.split('|')))`. The identifier is always
      present. */
  function ConvertLine(line: string): (data: Data)
    ensures Lookup(data, Ein) == Some(LineKey(line))
  {
    var data := Zip(Columns, Split(line, '|'));
    ConvertLineItems(line);
    LookupItem(data, 0);
    LineKeyFirstPiece(line);
    data
  }

  /** The dict holds the pieces of the line, in order, under the column names:
      a line with fewer than six pieces gives a dict without the trailing
      attributes, and pieces after the sixth are dropped. */
  lemma ConvertLineItems(line: string)
    ensures var pieces := Split(line, '|');
            var data := Zip(Columns, pieces);
            && |data| == (if |pieces| < 6 then |pieces| else 6)
            && (forall j :: 0 <= j < |data| ==> data[j] == (Columns[j], pieces[j]))
            && DistinctFields(data)
  {
    var data := Zip(Columns, Split(line, '|'));
    ZipItems(Columns, Split(line, '|'));
    forall i, j | 0 <= i < j < |data| ensures data[i].0 != data[j].0 {
      assert data[i].0 == Columns[i] && data[j].0 == Columns[j];
    }
  }

  /** The Publication 78 line of a record: its six attributes joined with `|`. */
  function Format(r: Record): string {
    Join([r.ein, r.name, r.city, r.state, r.country, r.deductabilityCode], '|')
  }

  /** No attribute of the record holds the delimiter. */
  predicate PipeFree(r: Record) {
    '|' !in r.ein && '|' !in r.name && '|' !in r.city && '|' !in r.state
    && '|' !in r.country && '|' !in r.deductabilityCode
  }

  /** Decoding a line of six pipe-free fields gives back exactly those six
      values, in order, under `ein`, `name`, `city`, `state`, `country` and
      `deductability_code`, so every attribute is found with its value. */
  lemma ConvertLineRoundTrip(r: Record)
    requires PipeFree(r)
    ensures ConvertLine(Format(r)) ==
            [(Ein, r.ein), (Name, r.name), (City, r.city), (State, r.state),
             (Country, r.country), (DeductabilityCode, r.deductabilityCode)]
    ensures LineKey(Format(r)) == r.ein
    ensures forall f :: Lookup(ConvertLine(Format(r)), f) == Some(Get(r, f))
  {
    var fields := [r.ein, r.name, r.city, r.state, r.country, r.deductabilityCode];
    SplitJoin(fields, '|');
    LineKeyFirstPiece(Format(r));
    ConvertLineItems(Format(r));
    var data := ConvertLine(Format(r));
    forall f ensures Lookup(data, f) == Some(Get(r, f)) {
      var j := match f
        case Ein => 0 case Name => 1 case City => 2
        case State => 3 case Country => 4 case DeductabilityCode => 5;
      assert Columns[j] == f;
      LookupItem(data, j);
    }
  }

  /** Writing a formatted record's line over any row, stored or blank, gives
      the record: every attribute is named by the line. */
  lemma OverwriteWithFormatted(row: Record, r: Record)
    requires PipeFree(r)
    ensures SetFields(row, ConvertLine(Format(r))) == r
    ensures FromData(ConvertLine(Format(r))) == r
  {
    ConvertLineRoundTrip(r);
    SetFieldsGet(row, ConvertLine(Format(r)));
    FromDataGet(ConvertLine(Format(r)));
    RecordExtensionality(SetFields(row, ConvertLine(Format(r))), r);
    RecordExtensionality(FromData(ConvertLine(Format(r))), r);
  }
}
