/** A confirmation job that mails twice: after the first mail neither the flag nor the completion is written. */
module TwoMails {
  import opened Wrappers
  import opened Rows
  import opened Engine
  import opened Jobs
  import opened ConfirmationJobs
  import opened LapsedHold
  import opened ConfirmedLost
  import opened SlowWorker

  const MAIL := Job(Confirmation, 0, Queued, 0, None, false)
  const AGAIN: Time := 7 + 5 * Jobs.SECOND
  const MAILER := Worker(1, false, Claimed, false)
  const FIRST_MESSAGES := {Message(0, LATER), Message(1, 4)}

  const T4 := System(C4, map[0 := TIMER, 1 := MAIL], 2, FIRST_MESSAGES, map[], {})
  const T5 := T4.(db := C4.(clock := 5), jobs := map[0 := TIMER, 1 := MAIL.(status := InProgress, startedAt := Some(5))],
                  workers := map[0 := MAILER])
  const T6 := T5.(db := C4.(clock := 6), workers := map[0 := MAILER.(progress := Done(true), unflagged := true)])
  const RETRIED := MAIL.(status := Queued, startedAt := Some(5), retryCount := 1)
  const T7 := T6.(db := C4.(clock := 7), jobs := map[0 := TIMER, 1 := RETRIED], workers := map[],
                  messages := FIRST_MESSAGES + {Message(1, AGAIN)})
  const T8 := T7.(db := C4.(clock := AGAIN), jobs := map[0 := TIMER, 1 := RETRIED.(status := InProgress, startedAt := Some(AGAIN))],
                  workers := map[0 := MAILER])
  const T9 := T8.(db := C4.(clock := AGAIN + 1),
                  jobs := map[0 := TIMER, 1 := T8.jobs[1].(emailSent := true)],
                  workers := map[0 := MAILER.(progress := Done(true))])

  lemma PaidFor3()
    ensures SysLeads(W3, OnRows(PayBooking(0, true)), 4, T4)
  {
    FirstPays();
    assert !HasJob(W3.jobs, Confirmation, 0);
    assert W3.jobs[1 := MAIL] == T4.jobs && W3.messages + {Message(1, 4)} == T4.messages;
  }

  lemma FirstClaim()
    ensures SysLeads(T4, Deliver(Message(1, 4), 0), 5, T5)
  {
    assert T4.jobs[1 := T5.jobs[1]] == T5.jobs && T4.workers[0 := MAILER] == T5.workers;
  }

  lemma FirstMail()
    ensures SysLeads(T5, HandleConfirmation(0, Mailed(false)), 6, T6)
  {
    assert T5.workers[0 := T6.workers[0]] == T6.workers;
  }

  lemma WriteFails()
    ensures SysLeads(T6, Finish(0, true), 7, T7)
  {
    assert T6.workers - {0} == T7.workers && T6.jobs[1 := RETRIED] == T7.jobs;
    assert T6.messages + {Message(1, 7 + Backoff(1))} == T7.messages;
  }

  lemma SecondClaim()
    ensures SysLeads(T7, Deliver(Message(1, AGAIN), 0), AGAIN, T8)
  {
    assert T7.jobs[1 := T8.jobs[1]] == T8.jobs && T7.workers[0 := MAILER] == T8.workers;
  }

  lemma SecondMail()
    ensures SysLeads(T8, HandleConfirmation(0, Mailed(true)), AGAIN + 1, T9)
  {
    assert T8.jobs[1 := T9.jobs[1]] == T9.jobs && T8.workers[0 := T9.workers[0]] == T9.workers;
  }

  lemma MailsCount(worlds: seq<System>, labels: seq<SysLabel>)
    requires |labels| == 9 && |worlds| == 10 && worlds[5] == T5 && worlds[8] == T8
    requires labels[5].action == HandleConfirmation(0, Mailed(false)) && labels[8].action == HandleConfirmation(0, Mailed(true))
    ensures Mails(worlds, labels, 1, 9) >= 2
  {
    assert MailsAt(worlds[5], labels[5], 1) && MailsAt(worlds[8], labels[8], 1);
    assert Mails(worlds, labels, 1, 6) >= 1;
    assert Mails(worlds, labels, 1, 8) >= Mails(worlds, labels, 1, 7) >= Mails(worlds, labels, 1, 6);
  }

  lemma FirstFour() returns (worlds: seq<System>, labels: seq<SysLabel>)
    ensures IsSysRun(worlds, labels) && |labels| == 6 && worlds[5] == T5 && worlds[6] == T6
    ensures labels[5].action == HandleConfirmation(0, Mailed(false))
  {
    worlds, labels := TimerSet();
    PaidFor3();
    worlds, labels := Grow(worlds, labels, OnRows(PayBooking(0, true)), 4, T4);
    FirstClaim();
    worlds, labels := Grow(worlds, labels, Deliver(Message(1, 4), 0), 5, T5);
    FirstMail();
    worlds, labels := Grow(worlds, labels, HandleConfirmation(0, Mailed(false)), 6, T6);
  }

  /** A real run with two mails for one job, and no crash, manual retry or stuck reset in it. */
  lemma MailedTwice() returns (worlds: seq<System>, labels: seq<SysLabel>)
    ensures IsSysRun(worlds, labels) && |labels| == 9
    ensures 1 in worlds[9].jobs && worlds[9].jobs[1].kind.Confirmation?
    ensures Mails(worlds, labels, 1, 9) >= 2
  {
    worlds, labels := FirstFour();
    WriteFails();
    worlds, labels := Grow(worlds, labels, Finish(0, true), 7, T7);
    SecondClaim();
    worlds, labels := Grow(worlds, labels, Deliver(Message(1, AGAIN), 0), AGAIN, T8);
    SecondMail();
    worlds, labels := Grow(worlds, labels, HandleConfirmation(0, Mailed(true)), AGAIN + 1, T9);
    MailsCount(worlds, labels);
  }
}
