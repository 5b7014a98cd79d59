/** The audio-file metadata table: one row per audio asset, with the fixed
    column schema of the CSV catalogue the dashboard loads. */
module Metadata {

  datatype Date = Date(year: int, month: int, day: int)

  /** One row of the table. Column names follow the CSV header
      (`duration_sec`, `hearing_aid`, `Receiver`, ...). `hearing_aid` and
      `Receiver` hold the strings "yes"/"no"; `wola_type` is a transform block
      size such as 16 or 64. */
  datatype Row = Row(
    filename: string,
    durationSec: int,
    channel: string,
    hearingAid: string,
    volumeDb: real,
    uploadDate: Date,
    audiogramGains: seq<int>,
    fileType: string,
    haType: string,
    micPosition: string,
    receiver: string,
    wolaType: int)

  type Table = seq<Row>

  /** `df[column].unique()`: the values seen in a column. Only membership in it
      is ever used, so it is a set. */
  function Unique<V>(t: Table, column: Row -> V): (r: set<V>)
    ensures |r| <= |t|
  {
    ImageCard(t, column);
    set row | row in t :: column(row)
  }

  /** A column has at most as many distinct values as the table has rows. */
  lemma {:induction false} ImageCard<V>(t: Table, column: Row -> V)
    ensures |set row | row in t :: column(row)| <= |t|
  {
    if t != [] {
      ImageCard(t[1..], column);
      var rest := set row | row in t[1..] :: column(row);
      assert (set row | row in t :: column(row)) == rest + {column(t[0])} by {
        assert forall row :: row in t <==> row == t[0] || row in t[1..];
      }
    }
  }

  /** Every row's value is among its column's values. */
  lemma UniqueHas<V>(t: Table, column: Row -> V, row: Row)
    requires row in t
    ensures column(row) in Unique(t, column)
  {
  }

  /** `df['volume_db'].min()` of a non-empty table. */
  function MinVolume(t: Table): (m: real)
    requires |t| > 0
    ensures forall row :: row in t ==> m <= row.volumeDb
    ensures exists row :: row in t && row.volumeDb == m
  {
    if |t| == 1 then t[0].volumeDb
    else
      var m' := MinVolume(t[1..]);
      assert forall row :: row in t ==> row == t[0] || row in t[1..];
      if t[0].volumeDb <= m' then t[0].volumeDb else m'
  }

  /** `df['volume_db'].max()` of a non-empty table. */
  function MaxVolume(t: Table): (m: real)
    requires |t| > 0
    ensures forall row :: row in t ==> row.volumeDb <= m
    ensures exists row :: row in t && row.volumeDb == m
  {
    if |t| == 1 then t[0].volumeDb
    else
      var m' := MaxVolume(t[1..]);
      assert forall row :: row in t ==> row == t[0] || row in t[1..];
      if m' <= t[0].volumeDb then t[0].volumeDb else m'
  }

  /** The value sets of the columns the dashboard offers as filter options. */
  function FileTypes(t: Table): set<string> { Unique(t, (row: Row) => row.fileType) }
  function HaTypes(t: Table): set<string> { Unique(t, (row: Row) => row.haType) }
  function MicPositions(t: Table): set<string> { Unique(t, (row: Row) => row.micPosition) }
  function Receivers(t: Table): set<string> { Unique(t, (row: Row) => row.receiver) }
  function WolaTypes(t: Table): set<int> { Unique(t, (row: Row) => row.wolaType) }
  function Channels(t: Table): set<string> { Unique(t, (row: Row) => row.channel) }
}
