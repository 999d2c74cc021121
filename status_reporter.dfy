/** `StatusReporter`: collects success, warning and error messages and
    renders them as a sectioned summary. */
module StatusReport {
  import opened Strings

  /** The summary lines of a list of messages, one "  - m" each. */
  function Bullets(msgs: seq<string>): seq<string> {
    seq(|msgs|, i requires 0 <= i < |msgs| => "  - " + msgs[i])
  }

  /** The header of a section: its title and the number of messages. */
  function Header(title: string, n: nat): string {
    title + " (" + NatToString(n) + "):"
  }

  /** A summary section: nothing for no messages, else the header followed
      by one line per message. */
  function Section(title: string, msgs: seq<string>): seq<string> {
    if |msgs| == 0 then [] else [Header(title, |msgs|)] + Bullets(msgs)
  }

  /** The lines of the summary: successes, then warnings, then errors. */
  function SummaryLines(successes: seq<string>, warnings: seq<string>, errors: seq<string>): seq<string> {
    Section("Successes", successes) + Section("Warnings", warnings) + Section("Errors", errors)
  }

  const NoMessages := "No messages recorded"

  /** What `get_summary` returns for the recorded messages. */
  function Summary(successes: seq<string>, warnings: seq<string>, errors: seq<string>): string {
    var lines := SummaryLines(successes, warnings, errors);
    if |lines| == 0 then NoMessages else Join("\n", lines)
  }

  class StatusReporter {
    var successMessages: seq<string>
    var errorMessages: seq<string>
    var warningMessages: seq<string>

    constructor()
      ensures successMessages == [] && errorMessages == [] && warningMessages == []
    {
      successMessages := [];
      errorMessages := [];
      warningMessages := [];
    }

    /** `success(message)`: records the message and returns it tagged. */
    method Success(message: string) returns (r: string)
      modifies this
      ensures successMessages == old(successMessages) + [message]
      ensures errorMessages == old(errorMessages) && warningMessages == old(warningMessages)
      ensures r == "SUCCESS: " + message
    {
      successMessages := successMessages + [message];
      r := "SUCCESS: " + message;
    }

    /** `error(message)` */
    method Error(message: string) returns (r: string)
      modifies this
      ensures errorMessages == old(errorMessages) + [message]
      ensures successMessages == old(successMessages) && warningMessages == old(warningMessages)
      ensures r == "ERROR: " + message
    {
      errorMessages := errorMessages + [message];
      r := "ERROR: " + message;
    }

    /** `warning(message)` */
    method Warning(message: string) returns (r: string)
      modifies this
      ensures warningMessages == old(warningMessages) + [message]
      ensures successMessages == old(successMessages) && errorMessages == old(errorMessages)
      ensures r == "WARNING: " + message
    {
      warningMessages := warningMessages + [message];
      r := "WARNING: " + message;
    }

    /** `get_summary()` */
    method GetSummary() returns (r: string)
      ensures r == Summary(successMessages, warningMessages, errorMessages)
    {
      var parts: seq<string> := [];
      parts := AppendSection(parts, "Successes", successMessages);
      parts := AppendSection(parts, "Warnings", warningMessages);
      parts := AppendSection(parts, "Errors", errorMessages);
      assert parts == SummaryLines(successMessages, warningMessages, errorMessages);
      if |parts| == 0 {
        return NoMessages;
      }
      r := Join("\n", parts);
    }
  }

  /** One `if msgs: parts.append(header); for msg in msgs: ...` block of
      `get_summary`. */
  method AppendSection(parts: seq<string>, title: string, msgs: seq<string>) returns (r: seq<string>)
    ensures r == parts + Section(title, msgs)
  {
    r := parts;
    if |msgs| > 0 {
      r := r + [Header(title, |msgs|)];
      var i := 0;
      while i < |msgs|
        invariant 0 <= i <= |msgs|
        invariant r == parts + [Header(title, |msgs|)] + Bullets(msgs[..i])
      {
        assert Bullets(msgs[..i + 1]) == Bullets(msgs[..i]) + ["  - " + msgs[i]];
        r := r + ["  - " + msgs[i]];
        i := i + 1;
      }
      assert msgs[..i] == msgs;
    }
  }

  /** The summary is the fixed "No messages recorded" exactly when nothing
      was recorded: otherwise it opens with a section header. */
  lemma {:induction false} SummaryEmptyIff(successes: seq<string>, warnings: seq<string>, errors: seq<string>)
    ensures Summary(successes, warnings, errors) == NoMessages <==> successes == [] && warnings == [] && errors == []
  {
    var lines := SummaryLines(successes, warnings, errors);
    if |lines| > 0 {
      var first := if successes != [] then "Successes" else if warnings != [] then "Warnings" else "Errors";
      var n := if successes != [] then |successes| else if warnings != [] then |warnings| else |errors|;
      assert lines[0] == Header(first, n);
      assert lines[0][0] == first[0];
      JoinHead("\n", lines);
      assert Summary(successes, warnings, errors)[0] != NoMessages[0];
    }
  }

  /** A join starts with its first part. */
  lemma {:induction false} JoinHead(sep: string, parts: seq<string>)
    requires |parts| > 0
    ensures |parts[0]| <= |Join(sep, parts)| && Join(sep, parts)[..|parts[0]|] == parts[0]
  {
    if |parts| > 1 {
      assert Join(sep, parts) == parts[0] + (sep + Join(sep, parts[1..]));
    }
  }

  /** A section holds no line break when its title and messages hold none. */
  lemma {:induction false} SectionSingleLines(title: string, msgs: seq<string>)
    requires '\n' !in title
    requires forall k :: 0 <= k < |msgs| ==> '\n' !in msgs[k]
    ensures forall k :: 0 <= k < |Section(title, msgs)| ==> '\n' !in Section(title, msgs)[k]
  {
    if |msgs| > 0 {
      var h := Header(title, |msgs|);
      assert '\n' !in NatToString(|msgs|);
      assert h == title + (" (" + (NatToString(|msgs|) + "):"));
      forall k | 0 <= k < |Section(title, msgs)| ensures '\n' !in Section(title, msgs)[k] {
        if k > 0 {
          assert Section(title, msgs)[k] == "  - " + msgs[k - 1];
        }
      }
    }
  }

  /** When no message holds a line break, splitting a non-empty summary at
      its line breaks gives back the section lines, in order. */
  lemma {:induction false} SummarySplitsIntoLines(successes: seq<string>, warnings: seq<string>, errors: seq<string>)
    requires forall k :: 0 <= k < |successes| ==> '\n' !in successes[k]
    requires forall k :: 0 <= k < |warnings| ==> '\n' !in warnings[k]
    requires forall k :: 0 <= k < |errors| ==> '\n' !in errors[k]
    requires successes != [] || warnings != [] || errors != []
    ensures SplitOn(Summary(successes, warnings, errors), '\n') == SummaryLines(successes, warnings, errors)
  {
    SectionSingleLines("Successes", successes);
    SectionSingleLines("Warnings", warnings);
    SectionSingleLines("Errors", errors);
    var a := Section("Successes", successes);
    var b := Section("Warnings", warnings);
    var c := Section("Errors", errors);
    var lines := a + b + c;
    forall k | 0 <= k < |lines| ensures '\n' !in lines[k] {
      if k < |a| { assert lines[k] == a[k]; }
      else if k < |a| + |b| { assert lines[k] == b[k - |a|]; }
      else { assert lines[k] == c[k - |a| - |b|]; }
    }
    assert |lines| > 0 by {
      if successes != [] { assert |a| > 0; }
      else if warnings != [] { assert |b| > 0; }
      else { assert |c| > 0; }
    }
    SplitOnJoin(lines, '\n');
  }
}
