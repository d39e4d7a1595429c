/**
 * The homework status formatter: turns one homework record from the review
 * API into the text the bot sends to the chat.
 */
module Formatter {
  import opened Wrappers

  /** A homework record; either key may be missing from the JSON object. */
  datatype Homework = Homework(name: Option<string>, status: Option<string>)

  /** Sent when the record lacks its name or its status. */
  const NoDataMessage: string := "Не удалось получить данные."

  /** The three verdicts, one per known status. */
  const RejectedVerdict: string := "К сожалению в работе нашлись ошибки."
  const ApprovedVerdict: string := "Ревьюеру всё понравилось, можно приступать к следующему уроку."
  const ReviewingVerdict: string := "Работа взята в ревью."

  /** The three statuses the formatter knows. */
  predicate IsKnownStatus(status: string) {
    status == "rejected" || status == "approved" || status == "reviewing"
  }

  /** The verdict for a known status, nothing for any other. */
  function VerdictFor(status: string): (v: Option<string>)
    ensures v.Some? <==> IsKnownStatus(status)
  {
    if status == "rejected" then Some(RejectedVerdict)
    else if status == "approved" then Some(ApprovedVerdict)
    else if status == "reviewing" then Some(ReviewingVerdict)
    else None
  }

  /** The header-wrapped notification for a reviewed homework. */
  function ReviewedMessage(name: string, verdict: string): (message: string) {
    "У вас проверили работу \"" + name + "\"!\n\n" + verdict
  }

  /** The report for a status outside the three known ones. */
  function UnknownStatusMessage(name: string, status: string): (message: string) {
    "У работы \"" + name + "\" неизвестный статус: " + status + "."
  }

  /**
   * The formatter. Only an absent key counts as missing; a present status is
   * then compared against the three known ones, and anything else is reported
   * as unknown. It has no precondition: every record yields a string.
   */
  function ParseHomeworkStatus(homework: Homework): (message: string) {
    if homework.name.None? || homework.status.None? then
      NoDataMessage
    else
      var name, status := homework.name.value, homework.status.value;
      match VerdictFor(status)
      case Some(verdict) => ReviewedMessage(name, verdict)
      case None => UnknownStatusMessage(name, status)
  }

  /** `needle` occurs in `s` starting at position `i`. */
  predicate OccursAt(s: string, needle: string, i: int) {
    0 <= i && i + |needle| <= |s| && s[i..i + |needle|] == needle
  }

  /** `needle` occurs somewhere in `s`. */
  ghost predicate Contains(s: string, needle: string) {
    exists i :: OccursAt(s, needle, i)
  }

  // ---------------------------------------------------------------------
  // Exact outputs, branch by branch
  // ---------------------------------------------------------------------

  /**
   * The "could not get data" text comes out exactly when a key is absent:
   * no reviewed or unknown-status message can be mistaken for it.
   */
  lemma NoDataExactlyWhenMissing(homework: Homework)
    ensures ParseHomeworkStatus(homework) == "Не удалось получить данные."
            <==> homework.name.None? || homework.status.None?
  {
  }

  /**
   * Example: an empty name and an empty status are present, not missing, so
   * the record reaches the status branches (the general fact is the
   * right-to-left half of NoDataExactlyWhenMissing).
   */
  lemma EmptyFieldsAreNotMissing()
    ensures ParseHomeworkStatus(Homework(Some(""), Some(""))) == "У работы \"\" неизвестный статус: ."
  {
  }

  /** Each known status gives its own verdict under the header built from the name. */
  lemma KnownStatusMessages(name: string)
    ensures ParseHomeworkStatus(Homework(Some(name), Some("rejected")))
            == "У вас проверили работу \"" + name + "\"!\n\n" + "К сожалению в работе нашлись ошибки."
    ensures ParseHomeworkStatus(Homework(Some(name), Some("approved")))
            == "У вас проверили работу \"" + name + "\"!\n\n"
               + "Ревьюеру всё понравилось, можно приступать к следующему уроку."
    ensures ParseHomeworkStatus(Homework(Some(name), Some("reviewing")))
            == "У вас проверили работу \"" + name + "\"!\n\n" + "Работа взята в ревью."
  {
  }

  /**
   * Any other status is reported with its exact text, and the report
   * mentions both the homework's name and the status it carried.
   */
  lemma UnknownStatusMentionsNameAndStatus(name: string, status: string)
    requires !IsKnownStatus(status)
    ensures ParseHomeworkStatus(Homework(Some(name), Some(status)))
            == "У работы \"" + name + "\" неизвестный статус: " + status + "."
    ensures Contains(ParseHomeworkStatus(Homework(Some(name), Some(status))), name)
    ensures Contains(ParseHomeworkStatus(Homework(Some(name), Some(status))), status)
  {
    var head := "У работы \"";
    var middle := "\" неизвестный статус: ";
    var r := ParseHomeworkStatus(Homework(Some(name), Some(status)));
    assert r == head + name + middle + status + ".";
    assert r[|head|..|head| + |name|] == name;
    assert OccursAt(r, name, |head|);
    var j := |head| + |name| + |middle|;
    assert r[j..j + |status|] == status;
    assert OccursAt(r, status, j);
  }

  // ---------------------------------------------------------------------
  // The outcomes are told apart by the text alone
  // ---------------------------------------------------------------------

  /**
   * Example: the three verdict texts differ pairwise (the message-level
   * fact is ReviewedMessageDeterminesRecord).
   */
  lemma VerdictsDistinct()
    ensures RejectedVerdict != ApprovedVerdict
    ensures RejectedVerdict != ReviewingVerdict
    ensures ApprovedVerdict != ReviewingVerdict
  {
  }

  /** A reviewed notification never reads like an unknown-status report. */
  lemma ReviewedNeverLooksUnknown(h1: Homework, h2: Homework)
    requires h1.name.Some? && h1.status.Some? && IsKnownStatus(h1.status.value)
    requires h2.name.Some? && h2.status.Some? && !IsKnownStatus(h2.status.value)
    ensures ParseHomeworkStatus(h1) != ParseHomeworkStatus(h2)
  {
    var r1, r2 := ParseHomeworkStatus(h1), ParseHomeworkStatus(h2);
    assert r1[2] == 'в';
    assert r2[2] == 'р';
  }

  /** The verdict is the last part of a reviewed message; its next-to-last letter tells the three apart. */
  lemma VerdictSuffix(name: string, verdict: string)
    requires verdict in {RejectedVerdict, ApprovedVerdict, ReviewingVerdict}
    ensures var r := ReviewedMessage(name, verdict);
      |r| >= 2 && r[|r| - 2] == verdict[|verdict| - 2]
  {
  }

  /**
   * A reviewed notification names its homework and its status unambiguously:
   * two records with known statuses that give the same text agree on both.
   */
  lemma ReviewedMessageDeterminesRecord(h1: Homework, h2: Homework)
    requires h1.name.Some? && h1.status.Some? && IsKnownStatus(h1.status.value)
    requires h2.name.Some? && h2.status.Some? && IsKnownStatus(h2.status.value)
    requires ParseHomeworkStatus(h1) == ParseHomeworkStatus(h2)
    ensures h1 == h2
  {
    var n1, n2 := h1.name.value, h2.name.value;
    var v1, v2 := VerdictFor(h1.status.value).value, VerdictFor(h2.status.value).value;
    var r := ParseHomeworkStatus(h1);
    assert r == ReviewedMessage(n1, v1) == ReviewedMessage(n2, v2);
    VerdictSuffix(n1, v1);
    VerdictSuffix(n2, v2);
    assert v1 == v2;
    assert h1.status == h2.status;
    var head := "У вас проверили работу \"";
    assert |n1| == |n2|;
    assert n1 == r[|head|..|head| + |n1|] == n2;
  }
}
