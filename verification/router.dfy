/** The process-wide, single-slot mailbox through which other parts of the
    application ask the settings window to open on a given tab. */
module TabRouter {
  import opened Optional
  import opened Tabs

  datatype Router = Router(pending: Option<SettingsTab>)

  /** The slot as it is at process start. */
  const Empty: Router := Router(None)

  /** Store `tab`, overwriting any request not yet consumed. */
  function Request(r: Router, tab: SettingsTab): (r': Router)
    ensures r'.pending == Some(tab)
  {
    Router(Some(tab))
  }

  /** Read the slot and clear it, as one step. */
  function ConsumePending(r: Router): (res: (Option<SettingsTab>, Router))
    ensures res.0 == r.pending
    ensures res.1 == Empty
  {
    (r.pending, Empty)
  }

  /** A request is delivered once: the consume right after it returns the
      tab, and a second consume finds nothing. */
  lemma ConsumeOnce(r: Router, tab: SettingsTab)
    ensures ConsumePending(Request(r, tab)).0 == Some(tab)
    ensures ConsumePending(ConsumePending(Request(r, tab)).1).0 == None
  {
  }

  /** Last write wins: of two requests with no consume in between, only the
      second is pending. */
  lemma LastWriteWins(r: Router, first: SettingsTab, second: SettingsTab)
    ensures Request(Request(r, first), second) == Request(r, second)
    ensures ConsumePending(Request(Request(r, first), second)).0 == Some(second)
  {
  }
}
