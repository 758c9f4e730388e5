/** The video grid of the chat room: the member list the grid shows, the
    number of columns and rows, their track sizes, the container style and
    what each tile renders. Everything here is derived from the member list
    and whether a main stream is shown. */
module MemberGrid {
  import opened Wrappers

  /** A remote media stream, reduced to how many audio and video tracks it has. */
  datatype Stream = Stream(audioTracks: nat, videoTracks: nat)

  /** One entry of the connector list handed to the grid. */
  datatype ConnectorInfo = ConnectorInfo(streamType: string, connectorId: string, remoteStream: Option<Stream>)

  /** A connector with the two flags the grid derives for it. */
  datatype Member = Member(info: ConnectorInfo, audioActive: bool, videoActive: bool)

  function HasAudio(s: Option<Stream>): bool { s.Some? && s.value.audioTracks > 0 }

  function HasVideo(s: Option<Stream>): bool { s.Some? && s.value.videoTracks > 0 }

  /** The derived member list: same length, same order, every connector kept
      as it was, and each flag set iff the stream has a track of that kind. */
  function Members(list: seq<ConnectorInfo>): (ms: seq<Member>)
    ensures |ms| == |list|
    ensures forall i :: 0 <= i < |list| ==>
              ms[i].info == list[i] && ms[i].info.connectorId == list[i].connectorId &&
              (ms[i].audioActive <==> list[i].remoteStream.Some? && list[i].remoteStream.value.audioTracks >= 1) &&
              (ms[i].videoActive <==> list[i].remoteStream.Some? && list[i].remoteStream.value.videoTracks >= 1)
  {
    seq(|list|, i requires 0 <= i < |list| =>
          Member(list[i], HasAudio(list[i].remoteStream), HasVideo(list[i].remoteStream)))
  }

  /** The positions of the user streams in a connector list, in increasing
      order, each once. */
  function UserPositions(remote: seq<ConnectorInfo>): (ks: seq<nat>)
    ensures forall j :: 0 <= j < |ks| ==> ks[j] < |remote| && remote[ks[j]].streamType == "user"
    ensures forall j, j' :: 0 <= j < j' < |ks| ==> ks[j] < ks[j']
    ensures forall k :: 0 <= k < |remote| && remote[k].streamType == "user" ==> k in ks
    decreases |remote|
  {
    if |remote| == 0 then []
    else
      var n := |remote| - 1;
      UserPositions(remote[..n]) + (if remote[n].streamType == "user" then [n] else [])
  }

  /** The remote connectors that carry a member's camera and microphone,
      kept in order and with repeats, as `filter` keeps them; the others (a
      shared screen) go to the main stream instead. */
  function UserStreams(remote: seq<ConnectorInfo>): (us: seq<ConnectorInfo>)
    ensures var ks := UserPositions(remote);
            |us| == |ks| && forall j :: 0 <= j < |ks| ==> us[j] == remote[ks[j]]
    decreases |remote|
  {
    if |remote| == 0 then []
    else
      var n := |remote| - 1;
      UserStreams(remote[..n]) + (if remote[n].streamType == "user" then [remote[n]] else [])
  }

  /** Filtering a concatenation filters each part. */
  lemma {:induction false} UserStreamsOfConcat(a: seq<ConnectorInfo>, b: seq<ConnectorInfo>)
    ensures UserStreams(a + b) == UserStreams(a) + UserStreams(b)
    decreases |b|
  {
    if |b| > 0 {
      var n := |b| - 1;
      var last := if b[n].streamType == "user" then [b[n]] else [];
      assert (a + b)[..|a + b| - 1] == a + b[..n];
      assert (a + b)[|a + b| - 1] == b[n];
      assert UserStreams(a + b) == UserStreams(a + b[..n]) + last;
      assert UserStreams(b) == UserStreams(b[..n]) + last;
      UserStreamsOfConcat(a, b[..n]);
    } else {
      assert a + b == a;
    }
  }

  /** When every remote connector is a member's own stream, none is dropped. */
  lemma {:induction false} UserStreamsKeepsMembers(remote: seq<ConnectorInfo>)
    requires forall i :: 0 <= i < |remote| ==> remote[i].streamType == "user"
    ensures UserStreams(remote) == remote
    decreases |remote|
  {
    if |remote| > 0 {
      var n := |remote| - 1;
      assert remote == remote[..n] + [remote[n]];
      UserStreamsKeepsMembers(remote[..n]);
      UserStreamsOfConcat(remote[..n], [remote[n]]);
      assert UserStreams([remote[n]]) == [remote[n]] by {
        assert [remote[n]][..0] == [];
      }
    }
  }

  /** The list the room hands to the grid: the local member first, as a
      user stream with the id "local", then the remote user streams in
      order. The grid is never handed an empty list. */
  function WithLocal(localStream: Option<Stream>, remote: seq<ConnectorInfo>): (list: seq<ConnectorInfo>)
    ensures |list| >= 1 && list[0] == ConnectorInfo("user", "local", localStream)
    ensures list[1..] == UserStreams(remote)
    ensures forall i :: 0 <= i < |list| ==> list[i].streamType == "user"
  {
    [ConnectorInfo("user", "local", localStream)] + UserStreams(remote)
  }

  // ---------------------------------------------------------------- grid size

  /** A search for `Math.ceil(Math.sqrt(n))` upwards from r. */
  function CeilSqrtFrom(n: nat, r: nat): (c: nat)
    requires r == 0 || (r - 1) * (r - 1) < n
    ensures c * c >= n && (c == 0 || (c - 1) * (c - 1) < n)
    decreases n - r * r
  {
    if r * r >= n then r else CeilSqrtFrom(n, r + 1)
  }

  /** `Math.ceil(Math.sqrt(n))`: the least c with c * c >= n. */
  function CeilSqrt(n: nat): (c: nat)
    ensures c * c >= n && (c == 0 || (c - 1) * (c - 1) < n)
  {
    CeilSqrtFrom(n, 0)
  }

  /** The number of columns: `Math.min(Math.ceil(Math.sqrt(n)), 4)`. */
  function Columns(n: nat): (c: nat)
    ensures c <= 4
    ensures c == 0 <==> n == 0
    ensures n <= 16 ==> c * c >= n && (c == 0 || (c - 1) * (c - 1) < n)
    ensures n > 9 ==> c == 4
  {
    var r := CeilSqrt(n);
    CeilSqrtOfSmall(n, r);
    if r < 4 then r else 4
  }

  /** Up to sixteen the root is at most 4, and from ten on it is at least 4. */
  lemma CeilSqrtOfSmall(n: nat, r: nat)
    requires r * r >= n && (r == 0 || (r - 1) * (r - 1) < n)
    ensures n <= 16 ==> r <= 4
    ensures n > 9 ==> r >= 4
  {
    if r <= 3 {
      SmallSquare(r);
    } else if r >= 5 {
      var k := r - 1;
      MultiplyMonotone(k, 4, k);
      assert k * k >= 16;
    }
  }

  lemma SmallSquare(r: nat)
    requires r <= 3
    ensures r * r <= 9
  {
    if r == 3 {
    } else if r == 2 {
    }
  }

  lemma MultiplyMonotone(k: nat, a: int, b: int)
    requires a <= b
    ensures k * a <= k * b
  {
  }

  /** `Math.ceil(a / b)` for whole numbers. */
  function CeilDiv(a: nat, b: nat): (q: nat)
    requires b > 0
    ensures b * q >= a && b * (q - 1) < a
  {
    var q := (a + b - 1) / b;
    assert a + b - 1 == b * q + (a + b - 1) % b;
    q
  }

  /** The number of rows, `Math.ceil(n / columns)`; None stands for the NaN
      that 0 / 0 gives when the list is empty. */
  function Rows(n: nat): (r: Option<nat>)
    ensures r.None? <==> n == 0
    ensures r.Some? ==> Columns(n) * r.value >= n && Columns(n) * (r.value - 1) < n
  {
    if n == 0 then None else Some(CeilDiv(n, Columns(n)))
  }

  /** At most sixteen members fit without hitting the column cap, so there
      are never more rows than columns. */
  lemma RowsFitColumns(n: nat)
    requires 1 <= n <= 16
    ensures Rows(n).Some? && 1 <= Rows(n).value <= Columns(n)
  {
    var c := Columns(n);
    var q := Rows(n).value;
    assert c * (q - 1) < c * c;
    MultiplyCancel(c, q - 1, c);
  }

  lemma MultiplyCancel(k: nat, a: int, b: int)
    requires k * a < k * b
    ensures a < b
  {
  }

  /** The grid of a room that always holds the local member: between one and
      four columns, and enough cells for everyone with no empty row. */
  lemma RoomGridShape(localStream: Option<Stream>, remote: seq<ConnectorInfo>)
    ensures var n := |Members(WithLocal(localStream, remote))|;
            1 <= Columns(n) <= 4 && Rows(n).Some? && Rows(n).value >= 1 &&
            Columns(n) * Rows(n).value >= n && Columns(n) * (Rows(n).value - 1) < n
  {
  }

  // ---------------------------------------------------------------- track sizes

  /** A percentage track size: a number, or the `Infinity%` and `NaN%` that a
      division by zero yields. */
  datatype Track = Percent(value: real) | InfinityPercent | NaNPercent

  /** The column width, `100 / columns` percent. */
  function ColWidth(columns: nat): (t: Track)
    ensures columns == 0 <==> t == InfinityPercent
    ensures columns > 0 ==> t.Percent? && t.value * columns as real == 100.0
  {
    if columns == 0 then InfinityPercent else Percent(100.0 / columns as real)
  }

  /** The row height: a quarter when more than sixteen members, otherwise
      `100 / rows` percent. */
  function RowHeight(n: nat): (t: Track)
    ensures n > 16 ==> t == Percent(25.0)
    ensures n == 0 <==> t == NaNPercent
    ensures 1 <= n <= 16 ==> t.Percent? && t.value * Rows(n).value as real == 100.0
  {
    if n > 16 then Percent(25.0)
    else match Rows(n)
      case None => NaNPercent
      case Some(r) => Percent(100.0 / r as real)
  }

  /** With at most sixteen members the rows fill the grid's height: rows x
      row height is all of it. Beyond that there are more rows than four
      quarters and the grid overflows. */
  lemma RowsFillHeight(n: nat)
    requires n >= 1
    ensures n <= 16 ==> RowHeight(n).value * Rows(n).value as real == 100.0
    ensures n > 16 ==> RowHeight(n).value * Rows(n).value as real > 100.0
  {
    if n > 16 {
      var q := Rows(n).value;
      assert Columns(n) == 4;
      assert 4 * q >= n;
      assert q >= 5;
    }
  }

  // ---------------------------------------------------------------- container

  /** The inline style of the member-list container. */
  datatype ListStyle = ListStyle(width: string, display: string,
                                 columns: nat, colWidth: Track,
                                 rows: Option<nat>, rowHeight: Track,
                                 background: string)

  /** The container beside a main stream is a 248px dark column of blocks;
      without one it is a transparent grid over the whole width. */
  function Container(members: seq<Member>, hasMainStream: bool): (s: ListStyle)
    ensures s.display == (if hasMainStream then "block" else "grid")
    ensures s.width == (if hasMainStream then "248px" else "100%")
    ensures s.background == (if hasMainStream then "#222" else "transparent")
    ensures s.columns == Columns(|members|) && s.rows == Rows(|members|)
    ensures s.colWidth == ColWidth(s.columns) && s.rowHeight == RowHeight(|members|)
  {
    var n := |members|;
    var columns := Columns(n);
    ListStyle(if hasMainStream then "248px" else "100%",
              if hasMainStream then "block" else "grid",
              columns, ColWidth(columns),
              Rows(n), RowHeight(n),
              if hasMainStream then "#222" else "transparent")
  }

  // ---------------------------------------------------------------- tiles

  /** What one grid cell holds: the member's video, or the user icon with an
      audio element when there is audio. */
  datatype Tile = VideoTile(key: string) | IconTile(key: string, withAudio: bool)

  function TileOf(m: Member): (t: Tile)
    ensures t.key == m.info.connectorId
    ensures t.VideoTile? <==> m.videoActive
    ensures t.IconTile? ==> (t.withAudio <==> m.audioActive)
  {
    if m.videoActive then VideoTile(m.info.connectorId) else IconTile(m.info.connectorId, m.audioActive)
  }

  /** One tile per member, in list order, keyed by the connector id. */
  function Tiles(members: seq<Member>): (ts: seq<Tile>)
    ensures |ts| == |members|
    ensures forall i :: 0 <= i < |members| ==> ts[i] == TileOf(members[i])
  {
    seq(|members|, i requires 0 <= i < |members| => TileOf(members[i]))
  }

  /** A connector whose stream has video is shown as video; one without
      video is an icon, with audio iff its stream has an audio track. */
  lemma TileFollowsStream(list: seq<ConnectorInfo>, i: nat)
    requires i < |list|
    ensures var t := Tiles(Members(list))[i];
            t.key == list[i].connectorId &&
            (t.VideoTile? <==> HasVideo(list[i].remoteStream)) &&
            (t.IconTile? ==> (t.withAudio <==> HasAudio(list[i].remoteStream)))
  {
  }

  /** The room's grid: the local member's tile first, keyed "local", then one
      tile per remote user stream in order; a shared screen gets no tile. */
  lemma RoomTiles(localStream: Option<Stream>, remote: seq<ConnectorInfo>)
    ensures var list := WithLocal(localStream, remote);
            var ts := Tiles(Members(list));
            var us := UserStreams(remote);
            |ts| == 1 + |us| && ts[0].key == "local" &&
            (ts[0].VideoTile? <==> HasVideo(localStream)) &&
            forall i :: 0 <= i < |us| ==> ts[i + 1].key == us[i].connectorId
  {
    var list := WithLocal(localStream, remote);
    assert forall i :: 0 <= i < |UserStreams(remote)| ==> list[i + 1] == UserStreams(remote)[i];
  }
}
