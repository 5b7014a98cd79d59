/** The dashboard script's own filter: how the sidebar widgets become criteria,
    and the inline boolean mask applied to the table. It differs from
    `filter_audio_metadata`: the mask always demands `hearing_aid == "yes"`,
    whatever the "Hearing Aid" selectbox says, and the channel criterion built
    in one branch is never applied. */
module AudioUploadDashboard {
  import opened Metadata
  import opened Selection
  import AudioDataUtils

  datatype Option<T> = None | Some(value: T)

  /** The sidebar widget values the filter reads: the "Hearing Aid"
      selectbox, the three hardware multiselects shown only when it is "yes",
      the duration and volume range sliders, and the file type and WOLA type
      multiselects. */
  datatype SidebarInput = SidebarInput(
    hearingFilter: string,
    haTypePick: set<string>,
    micPick: set<string>,
    receiverPick: set<string>,
    durationPick: (int, int),
    volumePick: (real, real),
    fileTypePick: set<string>,
    wolaPick: set<int>)

  /** What the widgets can return for table `t`: a selectbox option, picks
      among each multiselect's options, and ordered slider ends within the
      slider's bounds (the volume slider spans the column's minimum to maximum). */
  predicate Admissible(t: Table, ui: SidebarInput): (ok: bool)
    ensures ok ==> forall f :: f in ui.fileTypePick ==> exists row :: row in t && row.fileType == f
    ensures ok ==> forall w :: w in ui.wolaPick ==> exists row :: row in t && row.wolaType == w
    ensures ok && ui.hearingFilter == "yes" ==>
      && (forall h :: h in ui.haTypePick ==> exists row :: row in t && row.haType == h)
      && (forall m :: m in ui.micPick ==> exists row :: row in t && row.micPosition == m)
      && (forall x :: x in ui.receiverPick ==> exists row :: row in t && row.receiver == x)
  {
    && (ui.hearingFilter == "yes" || ui.hearingFilter == "no")
    && (ui.hearingFilter == "yes" ==>
          ui.haTypePick <= HaTypes(t) && ui.micPick <= MicPositions(t) && ui.receiverPick <= Receivers(t))
    && 0 <= ui.durationPick.0 <= ui.durationPick.1 <= 60
    && (|t| > 0 ==> MinVolume(t) <= ui.volumePick.0 <= ui.volumePick.1 <= MaxVolume(t))
    && ui.fileTypePick <= FileTypes(t)
    && ui.wolaPick <= WolaTypes(t)
  }

  /** The widget values on first load: selectbox on "no", every multiselect
      on all of its options, both sliders at their full span. They are
      admissible, and the file type and WOLA picks hold every value of their
      columns. */
  function DefaultInput(t: Table): (ui: SidebarInput)
    requires |t| > 0
    ensures ui.hearingFilter == "no" && ui.durationPick == (0, 60)
    ensures Admissible(t, ui)
    ensures FileTypes(t) <= ui.fileTypePick && WolaTypes(t) <= ui.wolaPick
  {
    SidebarInput("no", HaTypes(t), MicPositions(t), Receivers(t), (0, 60),
                 (MinVolume(t), MaxVolume(t)), FileTypes(t), WolaTypes(t))
  }

  /** The criteria the script builds. `channelChoice` is `cchannel_filter`,
      assigned only when the selectbox is not "yes" and never read after. */
  datatype DashboardCriteria = DashboardCriteria(
    durationRange: (int, int),
    volumeRange: (real, real),
    fileTypes: set<string>,
    haTypes: set<string>,
    micPositions: set<string>,
    receivers: set<string>,
    wolaTypes: set<int>,
    channelChoice: Option<set<string>>)

  /** When the selectbox is "yes" the hardware criteria are the user's picks,
      which for admissible widgets never go beyond the values of their columns;
      otherwise they hold every value of their columns, and only then is a
      channel choice made. */
  function SidebarCriteria(t: Table, ui: SidebarInput): (d: DashboardCriteria)
    ensures d.durationRange == ui.durationPick && d.volumeRange == ui.volumePick
    ensures d.fileTypes == ui.fileTypePick && d.wolaTypes == ui.wolaPick
    ensures ui.hearingFilter == "yes" ==>
      d.haTypes == ui.haTypePick && d.micPositions == ui.micPick && d.receivers == ui.receiverPick
    ensures ui.hearingFilter != "yes" ==>
      HaTypes(t) <= d.haTypes && MicPositions(t) <= d.micPositions && Receivers(t) <= d.receivers
    ensures Admissible(t, ui) ==>
      d.haTypes <= HaTypes(t) && d.micPositions <= MicPositions(t) && d.receivers <= Receivers(t)
    ensures d.channelChoice.Some? <==> ui.hearingFilter != "yes"
  {
    var picked := ui.hearingFilter == "yes";
    DashboardCriteria(
      ui.durationPick,
      ui.volumePick,
      ui.fileTypePick,
      if picked then ui.haTypePick else HaTypes(t),
      if picked then ui.micPick else MicPositions(t),
      if picked then ui.receiverPick else Receivers(t),
      ui.wolaPick,
      if picked then None else Some(Channels(t)))
  }

  /** One row of the inline mask: `hearing_aid` must be "yes", and neither the
      selectbox nor `channelChoice` takes part. */
  predicate DashboardMatches(row: Row, d: DashboardCriteria)
  {
    && row.hearingAid == "yes"
    && d.durationRange.0 <= row.durationSec && row.durationSec <= d.durationRange.1
    && d.volumeRange.0 <= row.volumeDb && row.volumeDb <= d.volumeRange.1
    && row.fileType in d.fileTypes
    && row.haType in d.haTypes
    && row.micPosition in d.micPositions
    && row.wolaType in d.wolaTypes
    && row.receiver in d.receivers
  }

  function DashboardKeep(d: DashboardCriteria): Row -> bool
  {
    row => DashboardMatches(row, d)
  }

  /** `filtered_df`: the rows of `t` the inline mask keeps, in table order. */
  function DashboardFilter(t: Table, d: DashboardCriteria): (r: Table)
    ensures |r| <= |t|
    ensures forall row :: row in r <==> row in t && DashboardMatches(row, d)
  {
    Select(t, DashboardKeep(d))
  }

  /** The "Total Files" metric: the number of table positions whose row
      passes the mask. */
  function TotalFiles(t: Table, d: DashboardCriteria): (n: nat)
    ensures n <= |t|
    ensures n == |Positions(t, DashboardKeep(d))|
  {
    SelectCount(t, DashboardKeep(d));
    |DashboardFilter(t, d)|
  }

  /** `filtered_df` is `t` read at the strictly increasing positions of its
      matching rows. */
  lemma DashboardKeepsOrder(t: Table, d: DashboardCriteria)
    ensures PicksAt(DashboardFilter(t, d), t, KeptPositions(t, DashboardKeep(d)))
    ensures forall i :: 0 <= i < |t| ==> (i in KeptPositions(t, DashboardKeep(d)) <==> DashboardMatches(t[i], d))
  {
    SelectPicks(t, DashboardKeep(d));
  }

  /** Every row shown has `hearing_aid == "yes"`, whatever the selectbox says. */
  lemma DashboardAlwaysHearingAid(t: Table, ui: SidebarInput)
    ensures forall row :: row in DashboardFilter(t, SidebarCriteria(t, ui)) ==> row.hearingAid == "yes"
  {
  }

  /** With the selectbox on anything but "yes", the hardware criteria hold
      every value of their columns, so they exclude no row of the table. */
  lemma HardwareCriteriaWhenNotYes(t: Table, ui: SidebarInput)
    requires ui.hearingFilter != "yes"
    ensures var d := SidebarCriteria(t, ui);
      forall row :: row in t ==> row.haType in d.haTypes && row.micPosition in d.micPositions && row.receiver in d.receivers
  {
  }

  /** Hence, with the selectbox on anything but "yes", a row is shown exactly
      when it has a hearing aid and passes both sliders and the file type and
      WOLA type picks. */
  lemma DashboardSelectboxNotYes(t: Table, ui: SidebarInput)
    requires ui.hearingFilter != "yes"
    ensures forall row :: row in DashboardFilter(t, SidebarCriteria(t, ui)) <==>
      && row in t
      && row.hearingAid == "yes"
      && ui.durationPick.0 <= row.durationSec <= ui.durationPick.1
      && ui.volumePick.0 <= row.volumeDb <= ui.volumePick.1
      && row.fileType in ui.fileTypePick
      && row.wolaType in ui.wolaPick
  {
  }

  /** Admissible slider ends lie in [0, 60], so every row shown lasts 0 to 60
      seconds, both ends included. */
  lemma DashboardDurationWithinSlider(t: Table, ui: SidebarInput)
    requires Admissible(t, ui)
    ensures forall row :: row in DashboardFilter(t, SidebarCriteria(t, ui)) ==> 0 <= row.durationSec <= 60
  {
  }

  /** On first load the default widget values are admissible, the volume
      slider spans every row's volume, and the table shows exactly the rows
      with a hearing aid lasting 0 to 60 seconds, although the selectbox
      reads "no". */
  lemma DashboardDefaultView(t: Table)
    requires |t| > 0
    ensures Admissible(t, DefaultInput(t))
    ensures forall row :: row in t ==> MinVolume(t) <= row.volumeDb <= MaxVolume(t)
    ensures forall row :: row in DashboardFilter(t, SidebarCriteria(t, DefaultInput(t))) <==>
      row in t && row.hearingAid == "yes" && 0 <= row.durationSec <= 60
  {
    var ui := DefaultInput(t);
    assert MinVolume(t) <= t[0].volumeDb <= MaxVolume(t);
    forall row | row in t
      ensures row in DashboardFilter(t, SidebarCriteria(t, ui)) <==>
        row.hearingAid == "yes" && 0 <= row.durationSec <= 60
    {
      UniqueHas(t, (r: Row) => r.haType, row);
      UniqueHas(t, (r: Row) => r.micPosition, row);
      UniqueHas(t, (r: Row) => r.receiver, row);
      UniqueHas(t, (r: Row) => r.fileType, row);
      UniqueHas(t, (r: Row) => r.wolaType, row);
    }
  }

  /** The library filter's criteria that the dashboard mask amounts to: the
      hearing value fixed to "yes" and the channel set to every channel seen. */
  function AsLibraryCriteria(t: Table, d: DashboardCriteria): AudioDataUtils.Criteria
  {
    AudioDataUtils.Criteria("yes", d.durationRange, d.volumeRange, d.fileTypes,
                            d.haTypes, d.micPositions, d.receivers, d.wolaTypes, Channels(t))
  }

  /** The inline mask selects what `filter_audio_metadata` selects with
      `hearing_filter = "yes"` and `channel_filter` = all channels, so the
      library's properties (idempotence, monotonicity, empty inclusion sets,
      inverted ranges) carry over. */
  lemma DashboardAsLibrary(t: Table, d: DashboardCriteria)
    ensures DashboardFilter(t, d) == AudioDataUtils.FilterAudioMetadata(t, AsLibraryCriteria(t, d))
  {
    SelectCongruent(t, DashboardKeep(d), AudioDataUtils.Keep(AsLibraryCriteria(t, d)));
  }

  /** `cchannel_filter` is never read: whatever channel choice the criteria
      carry, the same rows are shown. This holds by construction, since
      `DashboardMatches` does not mention `channelChoice`; the property with
      content is `DashboardIgnoresChannel`, which varies the channel column
      itself. */
  lemma DashboardIgnoresChannelChoice(t: Table, d: DashboardCriteria, choice: Option<set<string>>)
    ensures DashboardFilter(t, d.(channelChoice := choice)) == DashboardFilter(t, d)
  {
    SelectCongruent(t, DashboardKeep(d.(channelChoice := choice)), DashboardKeep(d));
  }

  /** `a` and `b` are the same rows except, possibly, for the channel column. */
  ghost predicate SameExceptChannel(a: Table, b: Table)
  {
    && |a| == |b|
    && forall i :: 0 <= i < |a| ==> a[i].(channel := b[i].channel) == b[i]
  }

  /** Criteria that differ only in `channelChoice` select the same rows of
      tables that differ only in the channel column. */
  lemma {:induction false} FilterIgnoresChannel(t1: Table, t2: Table, d1: DashboardCriteria, d2: DashboardCriteria)
    requires SameExceptChannel(t1, t2)
    requires d1.(channelChoice := None) == d2.(channelChoice := None)
    ensures SameExceptChannel(DashboardFilter(t1, d1), DashboardFilter(t2, d2))
  {
    if t1 != [] {
      assert t1[0].(channel := t2[0].channel) == t2[0];
      assert SameExceptChannel(t1[1..], t2[1..]) by {
        forall i | 0 <= i < |t1| - 1
          ensures t1[1..][i].(channel := t2[1..][i].channel) == t2[1..][i]
        {
          assert t1[1..][i] == t1[i + 1] && t2[1..][i] == t2[i + 1];
        }
      }
      FilterIgnoresChannel(t1[1..], t2[1..], d1, d2);
    }
  }

  /** The column value sets the sidebar reads, other than the channel one, are
      the same for tables that differ only in the channel column. */
  lemma ColumnsIgnoreChannel(t1: Table, t2: Table)
    requires SameExceptChannel(t1, t2)
    ensures HaTypes(t1) == HaTypes(t2)
    ensures MicPositions(t1) == MicPositions(t2)
    ensures Receivers(t1) == Receivers(t2)
  {
    forall row | row in t1
      ensures exists row2 :: row2 in t2 && row2.haType == row.haType && row2.micPosition == row.micPosition && row2.receiver == row.receiver
    {
      var i :| 0 <= i < |t1| && t1[i] == row;
      assert t1[i].(channel := t2[i].channel) == t2[i];
    }
    forall row | row in t2
      ensures exists row1 :: row1 in t1 && row1.haType == row.haType && row1.micPosition == row.micPosition && row1.receiver == row.receiver
    {
      var i :| 0 <= i < |t2| && t2[i] == row;
      assert t1[i].(channel := t2[i].channel) == t2[i];
    }
  }

  /** The channel column has no effect on what is shown: for the same widget
      values, tables that differ only in channels show the same rows, apart
      from their channels, in the same order. */
  lemma DashboardIgnoresChannel(t1: Table, t2: Table, ui: SidebarInput)
    requires SameExceptChannel(t1, t2)
    ensures SameExceptChannel(DashboardFilter(t1, SidebarCriteria(t1, ui)),
                              DashboardFilter(t2, SidebarCriteria(t2, ui)))
  {
    ColumnsIgnoreChannel(t1, t2);
    FilterIgnoresChannel(t1, t2, SidebarCriteria(t1, ui), SidebarCriteria(t2, ui));
  }
}
