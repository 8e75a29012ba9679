/** The action table the offline backend really uses (flowers/seams/integrations.py:34-42). */
module ActionTable {
  import opened Types
  import opened ReadBack
  import opened Integrations

  const SEND := ("gmail", "GMAIL_SEND_EMAIL")
  const FETCH := ("gmail", "GMAIL_FETCH_EMAILS")
  const SEARCH := ("gmail", "GMAIL_SEARCH_EMAILS")
  const TRASH := ("gmail", "GMAIL_TRASH_MESSAGE")
  const LABEL := ("gmail", "GMAIL_ADD_LABEL")
  const CREATE := ("googlecalendar", "GOOGLECALENDAR_CREATE_EVENT")
  const LIST := ("googlecalendar", "GOOGLECALENDAR_LIST_EVENTS")

  const ACTIONS: map<ActionKey, (ActionKind, string)> := map[
    SEND := (WriteAction, "sent"), FETCH := (ReadAction, "inbox"), SEARCH := (ReadAction, "inbox"),
    TRASH := (WriteAction, "trash"), LABEL := (WriteAction, "labeled"),
    CREATE := (WriteAction, "events"), LIST := (ReadAction, "events")]

  /** No two of its actions write one surface, and none writes the inbox. */
  lemma OneWriterEach(k: ActionKey, l: ActionKey)
    requires k in ACTIONS && l in ACTIONS && ACTIONS[k].0.WriteAction? && ACTIONS[l].0.WriteAction?
    ensures ACTIONS[k].1 == ACTIONS[l].1 ==> k == l
    ensures ACTIONS[k].1 != "inbox"
  {
    assert "sent"[0] == 's' && "trash"[0] == 't' && "labeled"[0] == 'l' && "events"[0] == 'e' && "inbox"[0] == 'i';
  }

  /** So a write that the backend drops is always proven missing, after any history: there the added item never
      belongs to another call. */
  lemma {:induction false} DropsAreProvenMissing(be: Backend, broken: set<ActionKey>, unauthorized: set<string>,
                                                 acts: seq<Act>, c: Call, fp: Option<Fingerprint>, attempts: int)
    requires be.actions == ACTIONS && Healthy(be, Lived(be, broken, unauthorized, acts), c)
    requires be.actions[KeyFor(c)].0.WriteAction? && KeyFor(c) in be.drop
    requires HasExpectedEffect(map[], map[], fp).Some?
    ensures Verdict(be, Lived(be, broken, unauthorized, acts), c, fp, attempts).expected == Some(false)
  {
    forall k | k in be.actions && be.actions[k] == (WriteAction, be.actions[KeyFor(c)].1) ensures k == KeyFor(c) {
      OneWriterEach(k, KeyFor(c));
    }
    OneWriterEach(KeyFor(c), KeyFor(c));
    DroppedSendIsProvenMissing(be, broken, unauthorized, acts, c, fp, attempts);
  }
}
