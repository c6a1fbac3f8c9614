/** AMI messages as the service reads them, and what counts as a refusal (vnext/transport.py, command_rejected). */
module Ami {

  /** A header seen once, or a repeatable header collected into a list. */
  datatype Field = Scalar(text: string) | Many(texts: seq<string>)

  type Message = map<string, Field>

  function LowerChar(c: char): char {
    if 'A' <= c <= 'Z' then c + 32 as char else c
  }

  function Lower(s: string): (r: string)
    ensures |r| == |s| && forall i :: 0 <= i < |s| ==> r[i] == LowerChar(s[i])
  {
    seq(|s|, i requires 0 <= i < |s| => LowerChar(s[i]))
  }

  predicate OccursAt(s: string, part: string, i: nat) {
    i + |part| <= |s| && s[i..i + |part|] == part
  }

  predicate Contains(s: string, part: string) {
    exists i: nat | i <= |s| :: OccursAt(s, part, i)
  }

  const MARKERS: seq<string> := [
    "unknown node number",
    "is not ready",
    "unknown action name",
    "usage: rpt cmd"
  ]

  function Lines(m: Message, key: string): seq<string> {
    if key !in m then []
    else match m[key]
      case Scalar(text) => [text]
      case Many(texts) => texts
  }

  predicate SaysSuccess(m: Message) {
    "response" in m && m["response"] == Scalar("Success")
  }

  predicate CommandRejected(m: Message) {
    || ("response" in m && m["response"] in {Scalar("Error"), Scalar("Failed")})
    || exists line, marker | line in Lines(m, "output") && marker in MARKERS :: Contains(Lower(line), marker)
  }

  // ---- what is a refusal ------------------------------------------------------------------------

  /** Equal up to ASCII case. */
  predicate SameLetter(a: char, b: char) {
    || a == b
    || ('A' <= a <= 'Z' && b as int == a as int + 32)
    || ('A' <= b <= 'Z' && a as int == b as int + 32)
  }

  /** The line has the marker at some position, character by character. */
  ghost predicate Mentions(line: string, marker: string) {
    exists i: nat :: MentionsAt(line, marker, i)
  }

  predicate MentionsAt(line: string, marker: string, i: nat) {
    i + |marker| <= |line| && forall k :: 0 <= k < |marker| ==> SameLetter(line[i + k], marker[k])
  }

  predicate OutputHas(m: Message, line: string) {
    "output" in m && match m["output"]
      case Scalar(text) => line == text
      case Many(texts) => line in texts
  }

  ghost predicate Complains(line: string) {
    || Mentions(line, "Unknown node number")
    || Mentions(line, "is not ready")
    || Mentions(line, "Unknown action name")
    || Mentions(line, "Usage: rpt cmd")
  }

  /** The peer refused: by its response, or by a line of output, though its response may be a success. */
  ghost predicate IsRefusal(m: Message) {
    || ("response" in m && (m["response"] == Scalar("Error") || m["response"] == Scalar("Failed")))
    || exists line :: OutputHas(m, line) && Complains(line)
  }

  lemma RefusalDecided(m: Message)
    ensures CommandRejected(m) <==> IsRefusal(m)
  {
    hide Contains, Mentions;
    forall line ensures OutputHas(m, line) <==> line in Lines(m, "output") {
    }
    forall line ensures Complains(line) <==> exists marker :: marker in MARKERS && Contains(Lower(line), marker) {
      ComplaintDecided(line);
    }
  }

  lemma ComplaintDecided(line: string)
    ensures Complains(line) <==> exists marker :: marker in MARKERS && Contains(Lower(line), marker)
  {
    MarkersInLowerCase();
    HintsInLowerCase();
    hide Lower, Contains, Mentions;
    MentionDecided(line, "Unknown node number");
    MentionDecided(line, "is not ready");
    MentionDecided(line, "Unknown action name");
    MentionDecided(line, "Usage: rpt cmd");
    assert MARKERS[0] in MARKERS && MARKERS[1] in MARKERS && MARKERS[2] in MARKERS && MARKERS[3] in MARKERS;
  }

  lemma MarkersInLowerCase()
    ensures Lower("Unknown node number") == "unknown node number" && Lower("is not ready") == "is not ready"
  {
  }

  lemma HintsInLowerCase()
    ensures Lower("Unknown action name") == "unknown action name" && Lower("Usage: rpt cmd") == "usage: rpt cmd"
  {
  }

  lemma MentionDecided(line: string, marker: string)
    ensures Mentions(line, marker) <==> Contains(Lower(line), Lower(marker))
  {
    if i: nat :| MentionsAt(line, marker, i) {
      assert Lower(line)[i..i + |marker|] == Lower(marker);
      assert OccursAt(Lower(line), Lower(marker), i);
    }
    if i: nat :| i <= |line| && OccursAt(Lower(line), Lower(marker), i) {
      forall k | 0 <= k < |marker| ensures SameLetter(line[i + k], marker[k]) {
        assert Lower(line)[i + k] == Lower(line)[i..i + |marker|][k] == Lower(marker)[k];
      }
      assert MentionsAt(line, marker, i);
    }
  }
}
