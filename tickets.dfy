/**
 * Ticket channels: their names, and the transcript `CloseTicketButton` posts to
 * the `ticket-logs` channel before it deletes a ticket.
 */
module Tickets {
  import opened Text

  /** Transcripts longer than this many characters are sent as a file attachment. */
  const FileThreshold: nat := 1900

  /** The name of the channel that receives transcripts. */
  const LogChannelName: string := "ticket-logs"

  /** `f"{server}-shop-{member.name}".lower().replace(" ", "-")` (ShopBot.py:358). */
  function ShopChannelName(server: string, member: string): string {
    ChannelName(server + "-shop-" + member)
  }

  /** `f"{server}-ticket-{member.name}".lower().replace(" ", "-")` (ShopBot.py:617). */
  function OrderChannelName(server: string, member: string): string {
    ChannelName(server + "-ticket-" + member)
  }

  /** Ticket channel names never contain a space or an ASCII capital. */
  lemma TicketNamesHaveNoSpaces(server: string, member: string)
    ensures forall i :: 0 <= i < |ShopChannelName(server, member)| ==>
      ShopChannelName(server, member)[i] != ' ' && !IsUpper(ShopChannelName(server, member)[i])
    ensures forall i :: 0 <= i < |OrderChannelName(server, member)| ==>
      OrderChannelName(server, member)[i] != ' ' && !IsUpper(OrderChannelName(server, member)[i])
  {
    ChannelNameShape(server + "-shop-" + member);
    ChannelNameShape(server + "-ticket-" + member);
  }

  /** A user's order channel never takes the name of their shop channel on the same server. */
  lemma OrderNameDiffersFromShopName(server: string, member: string)
    ensures OrderChannelName(server, member) != ShopChannelName(server, member)
  {
    var s, t := server + "-shop-" + member, server + "-ticket-" + member;
    ChannelNameShape(s);
    ChannelNameShape(t);
    var k := |server| + 1;
    assert s[k] == 's' && t[k] == 't';
    assert ChannelName(s)[k] != ChannelName(t)[k];
  }

  /** One fetched message: the `strftime('%Y-%m-%d %H:%M')` stamp, the author's display form and
      the content. */
  datatype Message = Message(stamp: string, author: string, content: string)

  /** `f"\U{1F4DD} **Transcript for {name}**\n\n"`. */
  function Header(name: string): string {
    "\U{1F4DD} **Transcript for " + name + "**\n\n"
  }

  /** `f"[{timestamp}] {msg.author}: {msg.content}\n"`. */
  function LogLine(m: Message): string {
    "[" + m.stamp + "] " + m.author + ": " + m.content + "\n"
  }

  /** The log lines of a history, one per message, in history order. */
  function Lines(msgs: seq<Message>): (lines: seq<string>)
    ensures |lines| == |msgs|
    ensures forall i :: 0 <= i < |msgs| ==> lines[i] == LogLine(msgs[i])
  {
    seq(|msgs|, i requires 0 <= i < |msgs| => LogLine(msgs[i]))
  }

  /** The strings of `parts` written one after the other. */
  function Concat(parts: seq<string>): string {
    if parts == [] then "" else parts[0] + Concat(parts[1..])
  }

  /** The transcript of a channel: the header, then one line per message, oldest first. */
  function Transcript(name: string, msgs: seq<Message>): string {
    Header(name) + Concat(Lines(msgs))
  }

  lemma {:induction false} ConcatSnoc(parts: seq<string>, p: string)
    ensures Concat(parts + [p]) == Concat(parts) + p
  {
    if parts != [] {
      assert (parts + [p])[1..] == parts[1..] + [p];
      ConcatSnoc(parts[1..], p);
    }
  }

  /** The loop of ShopBot.py:553-556. */
  method BuildTranscript(name: string, msgs: seq<Message>) returns (text: string)
    ensures text == Transcript(name, msgs)
  {
    text := Header(name);
    var i := 0;
    ghost var lines := Lines(msgs);
    while i < |msgs|
      invariant 0 <= i <= |msgs|
      invariant text == Header(name) + Concat(lines[..i])
    {
      var line := "[" + msgs[i].stamp + "] " + msgs[i].author + ": " + msgs[i].content + "\n";
      assert line == lines[i];
      assert lines[..i + 1] == lines[..i] + [line];
      ConcatSnoc(lines[..i], line);
      text := text + line;
      i := i + 1;
    }
    assert lines[..i] == lines;
  }

  /** The concatenation splits around any one part. */
  lemma {:induction false} ConcatSplit(parts: seq<string>, i: nat)
    requires i < |parts|
    ensures Concat(parts) == Concat(parts[..i]) + parts[i] + Concat(parts[i + 1..])
  {
    if i == 0 {
      assert parts[..0] == [];
      assert parts[1..] == parts[i + 1..];
    } else {
      ConcatSplit(parts[1..], i - 1);
      assert parts[1..][..i - 1] == parts[..i][1..];
      assert parts[1..][i..] == parts[i + 1..];
    }
  }

  /** Message `i`'s line sits in the transcript right after the header and the lines of the
      messages before it. */
  lemma TranscriptKeepsOrder(name: string, msgs: seq<Message>, i: nat)
    requires i < |msgs|
    ensures var at := |Header(name)| + |Concat(Lines(msgs[..i]))|;
      at + |LogLine(msgs[i])| <= |Transcript(name, msgs)| &&
      Transcript(name, msgs)[at..at + |LogLine(msgs[i])|] == LogLine(msgs[i])
  {
    var lines := Lines(msgs);
    ConcatSplit(lines, i);
    assert Lines(msgs[..i]) == lines[..i];
    var pre, line := Header(name) + Concat(lines[..i]), lines[i];
    assert Transcript(name, msgs) == pre + line + Concat(lines[i + 1..]);
  }

  /** A concatenation of parts of at least `n` characters each has at least `n` characters per
      part. */
  lemma {:induction false} ConcatLength(parts: seq<string>, n: nat)
    requires forall k :: 0 <= k < |parts| ==> |parts[k]| >= n
    ensures |Concat(parts)| >= n * |parts|
  {
    if parts != [] {
      ConcatLength(parts[1..], n);
    }
  }

  /** Every log line takes at least six characters, brackets and separators included. */
  lemma LogLinesLength(msgs: seq<Message>)
    ensures |Concat(Lines(msgs))| >= 6 * |msgs|
  {
    ConcatLength(Lines(msgs), 6);
  }

  /** How a transcript reaches the log channel. */
  datatype Delivery = AsFile | Inline

  /** The size test of ShopBot.py:559. */
  function DeliveryFor(text: string): Delivery {
    if |text| > FileThreshold then AsFile else Inline
  }

  /** A channel with more than 316 messages always has its transcript delivered as a file,
      whatever the messages say. */
  lemma LongHistoryGoesToFile(name: string, msgs: seq<Message>)
    requires |msgs| > FileThreshold / 6
    ensures DeliveryFor(Transcript(name, msgs)) == AsFile
  {
    LogLinesLength(msgs);
  }
}
