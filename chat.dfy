/** The chat panel of the room: the message list, the input line, the list
    of pending attachments, and the send flow that turns the input and the
    attachments into messages. Sending over the data channel, ids, user
    names and timestamps are not modelled. */
module Chat {
  import opened Wrappers
  import ChatStore

  // ---------------------------------------------------------------- entities

  /** A browser File, reduced to what the panel reads. */
  datatype File = File(name: string, size: nat, mime: string)

  /** A pending attachment: the file and the icon shown for it. */
  datatype Img = Img(file: File, url: string)

  datatype SizeUnit = KB | MB | GB

  /** A file size as shown: the number `toFixed(2)` writes, counted in
      hundredths of the unit, and the unit. */
  datatype SizeLabel = SizeLabel(hundredths: nat, unit: SizeUnit)

  /** What `getFileInfo` yields for a file, without the chunks. The size is
      kept as its label; the text sent for it is `SizeText` of the label. */
  datatype FileInfo = FileInfo(name: string, size: SizeLabel, mime: string, url: string)

  datatype Body = Text(text: string) | FileBody(info: FileInfo)

  datatype Message = Message(isSelf: bool, body: Body)

  // ---------------------------------------------------------------- sizes

  const Kb: nat := 1024
  const Mb: nat := 1024 * Kb
  const Gb: nat := 1024 * Mb

  function UnitName(u: SizeUnit): string
  {
    match u
    case KB => "KB"
    case MB => "MB"
    case GB => "GB"
  }

  /** `(size / unit).toFixed(2)` as a number of hundredths. The units are
      powers of two, so the quotient is exact in floating point, and
      `toFixed` picks the nearest hundredth, the larger one on a tie. */
  function Hundredths(size: nat, unit: nat): (h: nat)
    requires unit > 0
    ensures 200 * size - unit < 2 * unit * h <= 200 * size + unit
  {
    (200 * size + unit) / (2 * unit)
  }

  /** The unit is KB below one MiB, MB below half a GiB, GB from there on;
      the number is the size in that unit, to the nearest hundredth with
      ties going up. The units are written out as numbers, 1024, 1024^2 and
      1024^3, so that the rounding stays linear arithmetic. */
  function FormatSize(size: nat): (l: SizeLabel)
    ensures l.unit == KB <==> size < Mb
    ensures l.unit == MB <==> Mb <= size && 2 * size < Gb
    ensures l.unit == GB <==> 2 * size >= Gb
    ensures l.unit == KB ==> 200 * size - 1024 < 2048 * l.hundredths <= 200 * size + 1024
    ensures l.unit == MB ==> 200 * size - 1048576 < 2097152 * l.hundredths <= 200 * size + 1048576
    ensures l.unit == GB ==> 200 * size - 1073741824 < 2147483648 * l.hundredths <= 200 * size + 1073741824
  {
    if size < Gb / 2 then
      if size < Mb then SizeLabel(Hundredths(size, 1024), KB)
      else SizeLabel(Hundredths(size, 1048576), MB)
    else SizeLabel(Hundredths(size, 1073741824), GB)
  }

  predicate IsDigit(c: char) { '0' <= c <= '9' }

  function DigitChar(d: nat): (c: char)
    requires d < 10
    ensures IsDigit(c) && c as int - '0' as int == d
  {
    ('0' as int + d) as char
  }

  /** The value of a string of decimal digits. */
  function DecimalValue(s: string): nat
    requires forall i :: 0 <= i < |s| ==> IsDigit(s[i])
    decreases |s|
  {
    if |s| == 0 then 0
    else
      assert IsDigit(s[|s| - 1]);
      10 * DecimalValue(s[..|s| - 1]) + (s[|s| - 1] as int - '0' as int)
  }

  /** The decimal digits of n with no leading zero, as JavaScript writes an
      integer. */
  function Decimal(n: nat): (s: string)
    ensures |s| >= 1 && (|s| > 1 ==> s[0] != '0')
    ensures forall i :: 0 <= i < |s| ==> IsDigit(s[i])
    ensures DecimalValue(s) == n
    decreases n
  {
    if n < 10 then [DigitChar(n)]
    else
      var s := Decimal(n / 10) + [DigitChar(n % 10)];
      assert s[..|s| - 1] == Decimal(n / 10);
      s
  }

  /** `toFixed(2)` of h hundredths: the whole part, a point, two digits. */
  function Fixed2(h: nat): (s: string)
    ensures |s| >= 4 && s[|s| - 3] == '.'
    ensures forall i :: 0 <= i < |s| && i != |s| - 3 ==> IsDigit(s[i])
    ensures DecimalValue(s[..|s| - 3]) == h / 100
    ensures DecimalValue(s[|s| - 2..]) == h % 100
  {
    var w := Decimal(h / 100);
    var s := w + ['.', DigitChar(h % 100 / 10), DigitChar(h % 10)];
    var tens, units := DigitChar(h % 100 / 10), DigitChar(h % 10);
    assert s[..|s| - 3] == w;
    assert s[|s| - 2..] == [tens, units];
    assert [tens, units][..1] == [tens];
    assert [tens][..0] == [];
    assert DecimalValue([tens]) == h % 100 / 10;
    s
  }

  /** The label as sent: the fixed-point number followed by the unit. */
  function SizeText(l: SizeLabel): string
  {
    Fixed2(l.hundredths) + UnitName(l.unit)
  }

  /** A thousand bytes are labelled 0.98KB. */
  lemma ThousandBytesLabel()
    ensures SizeText(FormatSize(1000)) == "0.98KB"
  {
    assert FormatSize(1000) == SizeLabel(98, KB);
    assert Decimal(0) == "0";
  }

  /** The information sent for a file; url is the icon for its name. */
  function FileInfoOf(f: File, icon: string -> string): (info: FileInfo)
    ensures info.name == f.name && info.mime == f.mime && info.url == icon(f.name)
    ensures info.size == FormatSize(f.size)
  {
    FileInfo(f.name, FormatSize(f.size), f.mime, icon(f.name))
  }

  // ---------------------------------------------------------------- blank input

  /** The characters `String.prototype.trim` removes: white space and line
      terminators. */
  predicate IsJsSpace(c: char)
  {
    c == '\t' || c == '\n' || c == '\U{000B}' || c == '\U{000C}' || c == '\r' || c == ' ' ||
    c == '\U{00A0}' || c == '\U{1680}' || ('\U{2000}' <= c <= '\U{200A}') ||
    c == '\U{2028}' || c == '\U{2029}' || c == '\U{202F}' || c == '\U{205F}' ||
    c == '\U{3000}' || c == '\U{FEFF}'
  }

  predicate Blank(s: string)
  {
    forall i :: 0 <= i < |s| ==> IsJsSpace(s[i])
  }

  /** s without its leading white space. */
  function TrimStart(s: string): (t: string)
    ensures |t| <= |s| && t == s[|s| - |t|..]
    ensures |t| > 0 ==> !IsJsSpace(t[0])
    ensures forall i :: 0 <= i < |s| - |t| ==> IsJsSpace(s[i])
    decreases |s|
  {
    if |s| > 0 && IsJsSpace(s[0]) then TrimStart(s[1..]) else s
  }

  /** s without its trailing white space. */
  function TrimEnd(s: string): (t: string)
    ensures |t| <= |s| && t == s[..|t|]
    ensures |t| > 0 ==> !IsJsSpace(t[|t| - 1])
    ensures forall i :: |t| <= i < |s| ==> IsJsSpace(s[i])
    decreases |s|
  {
    if |s| > 0 && IsJsSpace(s[|s| - 1]) then TrimEnd(s[..|s| - 1]) else s
  }

  function Trim(s: string): string
  {
    TrimEnd(TrimStart(s))
  }

  /** `!s.trim().length` holds exactly for input made only of white space. */
  lemma TrimmedEmptyIffBlank(s: string)
    ensures |Trim(s)| == 0 <==> Blank(s)
  {
    var u := TrimStart(s);
    if |u| > 0 {
      assert s[|s| - |u|] == u[0];
      assert !Blank(s);
      assert !IsJsSpace(u[0]);
      assert |TrimEnd(u)| > 0;
    }
  }

  // ---------------------------------------------------------------- list edits

  /** Where `splice(start, 1)` starts on a list of length len: a negative
      start counts from the end, and either way it is clamped to [0, len]. */
  function SpliceStart(len: nat, start: int): (k: nat)
    ensures k <= len
    ensures 0 <= start <= len ==> k == start
    ensures start < 0 && len + start >= 0 ==> k == len + start
  {
    if start < 0 then (if len + start < 0 then 0 else len + start)
    else if start > len then len else start
  }

  /** `splice(start, 1)`: the element at the start position is removed, if
      there is one. */
  function SpliceOne<T>(s: seq<T>, start: int): (r: seq<T>)
    ensures var k := SpliceStart(|s|, start);
            (k < |s| ==> r == s[..k] + s[k + 1..]) && (k == |s| ==> r == s)
  {
    var k := SpliceStart(|s|, start);
    if k < |s| then s[..k] + s[k + 1..] else s
  }

  /** Removing an index in range deletes exactly that entry: the others keep
      their order, and the contents lose exactly one copy of it. */
  lemma RemoveDeletesExactlyOne<T>(s: seq<T>, i: int)
    requires 0 <= i < |s|
    ensures var r := SpliceOne(s, i);
            |r| == |s| - 1 &&
            (forall j :: 0 <= j < i ==> r[j] == s[j]) &&
            (forall j :: i <= j < |r| ==> r[j] == s[j + 1]) &&
            multiset(r) + multiset{s[i]} == multiset(s)
  {
    var r := SpliceOne(s, i);
    assert s == s[..i] + [s[i]] + s[i + 1..];
    assert r == s[..i] + s[i + 1..];
  }

  /** The new pending entries for a picked set of files, in order. */
  function Attach(files: seq<File>, icon: string -> string): (imgs: seq<Img>)
    ensures |imgs| == |files|
    ensures forall i :: 0 <= i < |files| ==> imgs[i].file == files[i] && imgs[i].url == icon(files[i].name)
  {
    seq(|files|, i requires 0 <= i < |files| => Img(files[i], icon(files[i].name)))
  }

  /** The messages appended for the attachments of one send: one file
      message per attachment whose reading did not fail, in list order.
      failed holds the positions whose reading failed. */
  function FileMessages(files: seq<Img>, failed: set<nat>, icon: string -> string): (ms: seq<Message>)
    ensures |ms| <= |files|
    ensures forall j :: 0 <= j < |ms| ==> ms[j].isSelf && ms[j].body.FileBody?
    decreases |files|
  {
    if |files| == 0 then []
    else
      var n := |files| - 1;
      FileMessages(files[..n], failed, icon) +
      (if n in failed then [] else [Message(true, FileBody(FileInfoOf(files[n].file, icon)))])
  }

  /** The message sent for one attachment. */
  function FileMessage(img: Img, icon: string -> string): (m: Message)
    ensures m.isSelf && m.body == FileBody(FileInfoOf(img.file, icon))
  {
    Message(true, FileBody(FileInfoOf(img.file, icon)))
  }

  /** The positions below n whose reading succeeded, in increasing order. */
  function Succeeded(n: nat, failed: set<nat>): (ks: seq<nat>)
    ensures forall j :: 0 <= j < |ks| ==> ks[j] < n && ks[j] !in failed
    ensures forall j, j' :: 0 <= j < j' < |ks| ==> ks[j] < ks[j']
    ensures forall k :: 0 <= k < n && k !in failed ==> k in ks
    decreases n
  {
    if n == 0 then [] else Succeeded(n - 1, failed) + (if n - 1 in failed then [] else [n - 1])
  }

  /** One more attachment adds its message unless its reading failed. */
  lemma FileMessagesStep(files: seq<Img>, failed: set<nat>, icon: string -> string)
    requires |files| > 0
    ensures var n := |files| - 1;
            FileMessages(files, failed, icon) ==
            FileMessages(files[..n], failed, icon) + (if n in failed then [] else [FileMessage(files[n], icon)])
  {
  }

  /** With any set of failed readings, the messages are exactly one per
      successful reading, in the order of the attachments. */
  lemma {:induction false} FileMessagesAreTheSuccessfulReads(files: seq<Img>, failed: set<nat>, icon: string -> string)
    ensures var ms := FileMessages(files, failed, icon);
            var ks := Succeeded(|files|, failed);
            |ms| == |ks| &&
            forall j :: 0 <= j < |ks| ==> ms[j] == FileMessage(files[ks[j]], icon)
    decreases |files|
  {
    if |files| > 0 {
      var n := |files| - 1;
      var prev, ks := FileMessages(files[..n], failed, icon), Succeeded(n, failed);
      FileMessagesAreTheSuccessfulReads(files[..n], failed, icon);
      var ms, all := FileMessages(files, failed, icon), Succeeded(|files|, failed);
      FileMessagesStep(files, failed, icon);
      assert all == ks + (if n in failed then [] else [n]);
      forall j | 0 <= j < |all|
        ensures ms[j] == FileMessage(files[all[j]], icon)
      {
        if j < |ks| {
          assert ms[j] == prev[j] && all[j] == ks[j];
          assert files[..n][ks[j]] == files[ks[j]];
        }
      }
    }
  }

  /** When every reading succeeds, each attachment becomes exactly its
      message, in order. */
  lemma {:induction false} AllFilesSent(files: seq<Img>, icon: string -> string)
    ensures var ms := FileMessages(files, {}, icon);
            |ms| == |files| &&
            forall j :: 0 <= j < |files| ==> ms[j] == FileMessage(files[j], icon)
    decreases |files|
  {
    if |files| > 0 {
      var n := |files| - 1;
      var prev, ms := FileMessages(files[..n], {}, icon), FileMessages(files, {}, icon);
      AllFilesSent(files[..n], icon);
      FileMessagesStep(files, {}, icon);
      assert ms == prev + [FileMessage(files[n], icon)];
      forall j | 0 <= j < |files|
        ensures ms[j] == FileMessage(files[j], icon)
      {
        if j < n {
          assert ms[j] == prev[j] && files[..n][j] == files[j];
        }
      }
    }
  }

  // ---------------------------------------------------------------- the panel

  datatype SendEvent = KeyUp(code: string) | Click

  const MaxLength: nat := 100

  class ChatPanel {
    var input: string
    var messages: seq<Message>
    var pending: seq<Img>        // attachments waiting to be sent
    var loading: bool            // a send is in progress
    var sending: seq<Img>        // attachments taken by the send in progress
    var sendList: seq<Message>   // the message list the send in progress captured

    /** Only a send in progress has attachments in flight and a captured list. */
    ghost predicate Valid()
      reads this
    {
      !loading ==> sending == [] && sendList == []
    }

    constructor ()
      ensures Valid()
      ensures input == "" && messages == [] && pending == [] && !loading && sending == [] && sendList == []
    {
      input, messages, pending, loading, sending, sendList := "", [], [], false, [], [];
    }

    /** The remove button of the i-th attachment. */
    method Remove(index: int)
      requires Valid()
      modifies this`pending
      ensures Valid()
      ensures pending == SpliceOne(old(pending), index)
    {
      var k := SpliceStart(|pending|, index);
      if k < |pending| {
        pending := pending[..k] + pending[k + 1..];
      }
    }

    /** An edited image replaces the file of the index-th attachment; its icon
        and every other entry stay. An index with no entry fails before any
        change (`ok` is false). */
    method UpdateImage(img: Img, index: int) returns (ok: bool)
      requires Valid()
      modifies this`pending
      ensures Valid()
      ensures ok <==> 0 <= index < |old(pending)|
      ensures ok ==> pending == old(pending)[index := old(pending)[index].(file := img.file)]
      ensures !ok ==> pending == old(pending)
    {
      if index < 0 || index >= |pending| {
        return false;
      }
      pending := pending[index := pending[index].(file := img.file)];
      ok := true;
    }

    /** Picked files are appended, in order, after the pending ones. */
    method UploadFile(files: seq<File>, icon: string -> string)
      requires Valid()
      modifies this`pending
      ensures Valid()
      ensures pending == old(pending) + Attach(files, icon)
    {
      pending := pending + Attach(files, icon);
    }

    /** The send button, or a key released in the input. A keyup other than
        Enter, an over-long input or a send in progress is ignored; otherwise
        the text is sent, the attachments are taken for sending, and the send
        keeps the message list as it is at this point. */
    method SendMessage(e: SendEvent)
      requires Valid()
      modifies this`loading, this`input, this`messages, this`pending, this`sending, this`sendList
      ensures Valid()
      ensures (e.KeyUp? && e.code != "Enter") || |old(input)| > MaxLength || old(loading) ==> unchanged(this)
      ensures !((e.KeyUp? && e.code != "Enter") || |old(input)| > MaxLength || old(loading)) ==>
                loading && pending == [] && sending == old(pending) &&
                (Blank(old(input)) ==> messages == old(messages) && input == old(input)) &&
                (!Blank(old(input)) ==> messages == old(messages) + [Message(true, Text(old(input)))] && input == "") &&
                sendList == messages
    {
      if e.KeyUp? && e.code != "Enter" {
        return;
      }
      if |input| > MaxLength || loading {
        return;
      }
      loading := true;
      SendTextMessage();
      sendList := messages;
      SendFileMessage();
    }

    /** Blank input is not sent; other input becomes one message of this
        user and the input is cleared. */
    method SendTextMessage()
      modifies this`input, this`messages
      ensures Blank(old(input)) ==> messages == old(messages) && input == old(input)
      ensures !Blank(old(input)) ==> messages == old(messages) + [Message(true, Text(old(input)))] && input == ""
    {
      TrimmedEmptyIffBlank(input);
      if |Trim(input)| == 0 {
        return;
      }
      messages := messages + [Message(true, Text(input))];
      input := "";
    }

    /** The synchronous part of sending the attachments: the pending list is
        drained front to back into the send in progress. */
    method SendFileMessage()
      modifies this`pending, this`sending
      ensures pending == [] && sending == old(sending) + old(pending)
    {
      while |pending| > 0
        invariant sending + pending == old(sending) + old(pending)
        decreases |pending|
      {
        var fileItem := pending[0];
        assert pending == [fileItem] + pending[1..];
        pending := pending[1..];
        sending := sending + [fileItem];
      }
    }

    /** The send in progress completes: the message list becomes the list the
        send captured followed by the file messages, so messages received and
        a clear made while the files were read are lost. The pending list is
        emptied (attachments picked in the meantime are dropped with it) and
        the panel is ready again. */
    method FinishSending(failed: set<nat>, icon: string -> string)
      requires Valid() && loading
      modifies this`messages, this`pending, this`sending, this`loading, this`sendList
      ensures Valid()
      ensures messages == old(sendList) + FileMessages(old(sending), failed, icon)
      ensures pending == [] && sending == [] && sendList == [] && !loading
    {
      messages := sendList + FileMessages(sending, failed, icon);
      sending := [];
      sendList := [];
      pending := [];
      loading := false;
    }

    /** A message from another member: appended as not this user's, and
        counted as unread iff the panel is closed. */
    method Receive(m: Message, panelOpen: bool, store: ChatStore.ChatSlice)
      requires Valid() && store.Valid()
      modifies this`messages, store
      ensures Valid() && store.Valid()
      ensures messages == old(messages) + [m.(isSelf := false)]
      ensures store.count == old(store.count) + (if panelOpen then 0 else 1)
    {
      messages := messages + [m.(isSelf := false)];
      if !panelOpen {
        store.AddCount();
      }
    }

    /** Leaving the room clears the messages and the attachments. */
    method ClearMessage()
      requires Valid()
      modifies this`messages, this`pending
      ensures Valid()
      ensures messages == [] && pending == []
    {
      messages := [];
      pending := [];
    }
  }
}
