/**
 * The customer-support example built on function tools, in which the support
 * agent is a sub-agent of the main agent and the runtime performs the
 * transfer. Its `run` loop is ConsoleRuns.FirstPartRun.
 */
module CustomerSupportCustom {
  import opened Genai
  import opened Workflow
  import CustomerSupportOverview

  const SupportAgentName := "support_agent"
  const UrgentStatus := "Transferring to the support agent..."

  /** checkAndTransfer: only an urgent query sets the transfer target; the status says what happened. */
  method CheckAndTransfer(actions: ToolActions, query: string) returns (status: string)
    modifies actions
    ensures CustomerSupportOverview.IsUrgent(query) ==> status == UrgentStatus
    ensures !CustomerSupportOverview.IsUrgent(query) ==> status == "Processed query: '" + query + "'. No further action needed."
    ensures actions.transferToAgent == if CustomerSupportOverview.IsUrgent(query) then SupportAgentName else old(actions.transferToAgent)
    ensures actions.escalate == old(actions.escalate) && actions.skipSummarization == old(actions.skipSummarization)
  {
    if CustomerSupportOverview.IsUrgent(query) {
      actions.transferToAgent := SupportAgentName;
      return UrgentStatus;
    }
    return "Processed query: '" + query + "'. No further action needed.";
  }

  /** main_agent with the tool and support_agent as its only sub-agent. */
  const MainAgentConfig := Llm("main_agent", "", ["check_and_transfer"], [Leaf(SupportAgentName)])

  /** The transfer target is a child of the main agent, so the runtime can reach it. */
  lemma SupportIsSubAgent()
    ensures ChildNames(MainAgentConfig) == [SupportAgentName]
  {
  }

  /** The urgent status never quotes the query, so the two outcomes can be told apart. */
  lemma StatusesDiffer(query: string)
    ensures UrgentStatus != "Processed query: '" + query + "'. No further action needed."
  {
    assert UrgentStatus[0] != ("Processed query: '" + query + "'. No further action needed.")[0];
  }
}
