/**
 * The conversation-event record of Certobot's logging module
 * (backend/core/logging.py): the Portuguese message table, the lookup of
 * an event's message, and the key/value record `log_conversation_event`
 * assembles before handing it to the structured logger. The logger call
 * itself is replaced by returning the message and the record.
 */
module ConversationLog {
  import opened Wrappers
  import CpfValidator

  /** `LOG_MESSAGES`: event names and their Portuguese log messages. */
  const LogMessages: map<string, string> := map[
    "conversation_started" := "Conversa iniciada com devedor",
    "cpf_validation_requested" := "Validação de CPF solicitada",
    "cpf_validation_failed" := "Falha na validação do CPF",
    "cpf_validation_success" := "CPF validado com sucesso",
    "negotiation_started" := "Negociação iniciada",
    "negotiation_completed" := "Negociação concluída",
    "payment_agreement_reached" := "Acordo de pagamento estabelecido",
    "boleto_generated" := "Boleto gerado com sucesso",
    "conversation_timeout" := "Conversa expirou por timeout",
    "system_error" := "Erro do sistema",
    "whatsapp_message_sent" := "Mensagem WhatsApp enviada",
    "whatsapp_message_received" := "Mensagem WhatsApp recebida",
    "crm_update_success" := "CRM atualizado com sucesso",
    "crm_update_failed" := "Falha ao atualizar CRM"
  ]

  /** `LOG_MESSAGES.get(event, event)`: the event's message, or the event name. */
  function EventMessage(event: string): (m: string)
    ensures m == event || m in LogMessages.Values
    ensures event in LogMessages ==> m == LogMessages[event]
  {
    if event in LogMessages then LogMessages[event] else event
  }

  /** The fourteen events the table knows. */
  lemma LogMessagesEvents()
    ensures LogMessages.Keys == {
      "conversation_started", "cpf_validation_requested", "cpf_validation_failed",
      "cpf_validation_success", "negotiation_started", "negotiation_completed",
      "payment_agreement_reached", "boleto_generated", "conversation_timeout",
      "system_error", "whatsapp_message_sent", "whatsapp_message_received",
      "crm_update_success", "crm_update_failed"}
  {
  }

  /** No message of the table is the name of any event of the table. */
  lemma LogMessagesAreNotEventNames()
    ensures forall e, e' :: e in LogMessages && e' in LogMessages ==> LogMessages[e] != e'
  {
  }

  /**
   * A known event is translated to its table message; any other event name
   * is logged as itself. Hence the message differs from the event name
   * exactly when the event is in the table.
   */
  lemma EventMessageLookup(event: string)
    ensures event in LogMessages ==> EventMessage(event) == LogMessages[event]
    ensures event !in LogMessages ==> EventMessage(event) == event
    ensures EventMessage(event) != event <==> event in LogMessages
  {
    LogMessagesAreNotEventNames();
  }

  /** A value passed in the caller's keyword context (any Python value). */
  datatype Value = Str(text: string) | Other(repr: string)

  /** The key/value record handed to the logger. */
  type Record = map<string, Value>

  /**
   * The mask of `log_conversation_event`: first three and last two
   * characters of the raw string (punctuation included) around `****`,
   * or `***` when the string is shorter than five characters.
   */
  function MaskDebtorCpf(raw: string): (r: string)
    ensures |raw| >= 5 ==> |r| == 9 && r[..3] == raw[..3] && r[3..7] == "****" && r[7..] == raw[|raw| - 2..]
    ensures |raw| < 5 ==> r == "***"
    ensures |r| == 9 || |r| == 3
  {
    if |raw| >= 5 then raw[..3] + "****" + raw[|raw| - 2..] else "***"
  }

  /**
   * On a string that is already only digits, this mask agrees with the
   * validator's `_mask_cpf`.
   */
  lemma MaskDebtorCpfOfDigits(raw: string)
    requires CpfValidator.AllDigits(raw)
    ensures MaskDebtorCpf(raw) == CpfValidator.Mask(raw)
  {
    CpfValidator.CleanOfDigits(raw);
  }

  /**
   * On punctuated input the two masks differ: this one keeps punctuation
   * and counts characters, not digits.
   */
  lemma MaskDebtorCpfKeepsPunctuation()
    ensures MaskDebtorCpf("12.345") == "12.****45"
    ensures CpfValidator.Mask("12.345") == "123****45"
    ensures MaskDebtorCpf("1-2-3") == "1-2****-3"
    ensures CpfValidator.Mask("1-2-3") == "***"
  {
    var a, b := "12.345", "1-2-3";
    assert a[..3] + "****" + a[4..] == "12.****45";
    assert b[..3] + "****" + b[3..] == "1-2****-3";
    assert CpfValidator.Clean(a) == "12345";
    assert "12345"[..3] + "****" + "12345"[3..] == "123****45";
    assert CpfValidator.Clean(b) == "123";
  }

  /**
   * `log_conversation_event`: the message and the record it logs. The
   * configured default language is a parameter. Python binds `event`,
   * `session_id` and `debtor_cpf` to the named parameters, so the
   * keyword context never holds those keys.
   */
  method LogConversationEvent(
    event: string, sessionId: string, debtorCpf: Option<string>,
    context: Record, defaultLanguage: string)
    returns (message: string, record: Record)
    requires "event" !in context && "session_id" !in context && "debtor_cpf" !in context
    ensures message == (if event in LogMessages then LogMessages[event] else event)
    ensures record.Keys ==
      {"event", "session_id", "language"} + context.Keys +
      (if CpfValidator.Blank(debtorCpf) then {} else {"debtor_cpf"})
    ensures record["event"] == Str(event) && record["session_id"] == Str(sessionId)
    ensures record["language"] ==
      (if "language" in context then context["language"] else Str(defaultLanguage))
    ensures forall k :: k in context ==> record[k] == context[k]
    ensures !CpfValidator.Blank(debtorCpf) ==> record["debtor_cpf"] == Str(MaskDebtorCpf(debtorCpf.value))
  {
    var logData: Record :=
      map["event" := Str(event), "session_id" := Str(sessionId), "language" := Str(defaultLanguage)] + context;
    if !CpfValidator.Blank(debtorCpf) {
      var masked := MaskDebtorCpf(debtorCpf.value);
      logData := logData["debtor_cpf" := Str(masked)];
    }
    message := EventMessage(event);
    record := logData;
  }
}
