# Certobot CPF validator and conversation-event record, in Dafny

Certobot is a scaffold for a debt-collection chat bot for Brazil. This
project models its two pieces of string logic and proves their
properties:

- **The CPF validator** (`CPFValidator` in
  `backend/modules/validation/cpf_validator.py`; module `CpfValidator`,
  file `cpf_validator.dfy`).
  - `_clean_cpf` strips every non-digit (`Clean`).
  - `validate` is fail-closed. Empty or absent input is rejected. Other
    input goes to the external `validate_docbr` check. If that check
    raises, the answer is `false`.
  - `format` lays the 11 digits out as `XXX.XXX.XXX-XX`.
  - `_mask_cpf` masks a number for the logs.
- **The conversation-event record** (`log_conversation_event` and
  `LOG_MESSAGES` in `backend/core/logging.py`; module `ConversationLog`,
  file `conversation_log.dfy`).
  - The event name is looked up in the Portuguese message table. An unknown
    event is logged under its own name.
  - The record holds the fixed keys, then the caller's keyword context,
    then an optional masked CPF.
  - This mask works on the raw string, not on its digits.

The check-digit arithmetic is not in the repository. `validate` passes it
to the `validate_docbr` library. Here that library is a parameter
`lib: Library`, which either returns a verdict (`Returned(b)`) or raises
(`Raised(msg)`). The source comments say the input "can include
formatting" (cpf_validator.py line 24) and that the library "handles
formatting automatically" (line 33). That assumption is the predicate
`DependsOnlyOnDigits(lib)`: whether the library accepts a number depends
only on its digits. It says nothing about when, or with what text, the
library raises. Only the lemmas that need it require it.

The module `CpfReference` (file `cpf_reference.dfy`) is **not taken from
the Certobot sources**. It is a concrete stand-in for the library: the
usual Receita Federal rule of two mod-11 check digits, with numbers made
of one repeated digit rejected. It shows that the assumption can be met,
and it proves what `format` returns on concrete numbers such as
`529.982.247-25`.

Other conventions:

- `validate` returns its diagnostic log record (`Validation.log`) instead
  of emitting it. The record holds the masked number, plus the verdict or
  the error text.
- `log_conversation_event` returns the message and the record instead of
  calling the logger. The configured `settings.default_language` is a
  parameter.
- `Wrappers` (`wrappers.dfy`) holds the `Option` type. It stands for
  Python's `Optional[str]` and `None`.

What the code does, as opposed to what a complete CPF check does:

- A complete CPF check tests for 11 digits, rejects repeated digits and
  computes the two mod-11 check digits. This code delegates all of that
  to `validate_docbr`.
- `format` does not answer exactly when `validate` accepts. It also
  returns `None` when the library accepts a number without 11 digits
  (cpf_validator.py:69-72). So in general only one direction holds
  (`Format`). Both directions hold for the reference library
  (`CpfReference.ReceitaFormatIffValid`).
- The error record of `validate` carries `str(e)`, the library's own
  exception text (cpf_validator.py:48). Only the `cpf_masked` field is
  masked. If the library put the raw number in its exception message,
  the number would reach the log unmasked; `ValidateFollowsLibrary`
  states that the text is passed on verbatim.

## Model

| member | source | states |
|---|---|---|
| `CpfValidator.Clean` | backend/modules/validation/cpf_validator.py:74-76 | the result has only digits and is never longer than the input |
| `CpfValidator.CleanIsDigitSubsequence` | backend/modules/validation/cpf_validator.py:74-76 | the result reads the input at the positions of its digits, in increasing order: an order-preserving subsequence that keeps every digit and nothing else |
| `CpfValidator.CleanConcat` | backend/modules/validation/cpf_validator.py:74-76 | stripping two joined strings is the same as stripping each and joining the results |
| `CpfValidator.CleanOfDigits` | backend/modules/validation/cpf_validator.py:74-76 | a string made only of digits is left unchanged |
| `CpfValidator.CleanIdempotent` | backend/modules/validation/cpf_validator.py:74-76 | stripping twice gives the same result as stripping once |
| `CpfValidator.Mask` | backend/modules/validation/cpf_validator.py:78-83 | with at least 5 digits: 9 characters, the first three digits, then `****`, then the last two digits; with fewer digits: exactly `***` |
| `CpfValidator.MaskRevealsAtMostFiveDigits` | backend/modules/validation/cpf_validator.py:78-83 | the mask shows at most five digits, namely the first three and the last two; every other character is `*` |
| `CpfValidator.Validate` | backend/modules/validation/cpf_validator.py:19-50 | an accepted input is never empty or absent |
| `CpfValidator.ValidateBlankIgnoresLibrary` | backend/modules/validation/cpf_validator.py:29-30 | empty or absent input gives `false` with no log record, whatever the library would do |
| `CpfValidator.ValidateFollowsLibrary` | backend/modules/validation/cpf_validator.py:32-50 | on non-empty input the answer is true exactly when the library returns true; a returned verdict is passed on unchanged; a raised exception gives `false` and an error record holding the masked number and the error text |
| `CpfValidator.ValidateLogsOnlyMasked` | backend/modules/validation/cpf_validator.py:36-49 | a log record is produced exactly when the input is not blank; its `cpf_masked` field is `Mask` of the input, with at most five digits; a debug record reports the verdict that is returned; the error text of an error record is the library's and is not constrained |
| `CpfValidator.Layout` | backend/modules/validation/cpf_validator.py:70 | 14 characters; dots at indices 3 and 7 and a hyphen at 11; the digit groups are the slices [0,3), [3,6), [6,9), [9,11); stripping the punctuation gives back an all-digit input |
| `CpfValidator.LayoutCleansBack` | backend/modules/validation/cpf_validator.py:70 | stripping the punctuation from the layout of 11 digits gives back those digits |
| `CpfValidator.Format` | backend/modules/validation/cpf_validator.py:62-72 | returns a value exactly when `validate` accepts and the input has 11 digits; so `None` whenever `validate` is false, and `None` for an accepted input without 11 digits |
| `CpfValidator.FormatShape` | backend/modules/validation/cpf_validator.py:66-70 | a formatted value is `c[0..3] + "." + c[3..6] + "." + c[6..9] + "-" + c[9..11]` for the digits `c` of the input; it has 14 characters, dots at 3 and 7, a hyphen at 11, and its digits are `c` |
| `CpfValidator.FormatDependsOnlyOnDigits` | backend/modules/validation/cpf_validator.py:24-34 | if whether the library accepts depends only on the digits, two non-empty inputs with the same digits get the same verdict and the same formatted value |
| `CpfValidator.FormatIdempotent` | backend/modules/validation/cpf_validator.py:62-72 | if whether the library accepts depends only on the digits, formatting a formatted value gives it back unchanged |
| `CpfReference.ReceitaDependsOnlyOnDigits` | backend/modules/validation/cpf_validator.py:34 | reference stand-in, not from the source: whether the mod-11 library accepts depends only on the digits |
| `CpfReference.ReceitaFormatIffValid` | backend/modules/validation/cpf_validator.py:62-72 | with the reference library, accepted input has 11 digits, so `format` answers exactly when `validate` accepts |
| `CpfReference.RepeatedDigitsPassChecksum` | backend/modules/validation/cpf_validator.py:34 | reference stand-in, not from the source: eleven copies of one digit pass both check-digit tests, and the reference rule still rejects them |
| `CpfReference.ReceitaAcceptsSample` | backend/modules/validation/cpf_validator.py:34 | reference stand-in, not from the source: `52998224725` has correct check digits |
| `CpfReference.ReceitaRejectsMistyped` | backend/modules/validation/cpf_validator.py:34 | reference stand-in, not from the source: `52998224726` (last digit changed) is rejected |
| `CpfReference.FormatSample` | backend/modules/validation/cpf_validator.py:62-70 | with the reference library, `format("52998224725")` is `"529.982.247-25"` |
| `CpfReference.FormatPunctuatedSample` | backend/modules/validation/cpf_validator.py:62-70 | with the reference library, `format("529.982.247-25")` is `"529.982.247-25"` |
| `CpfReference.FormatRejects` | backend/modules/validation/cpf_validator.py:29-30 | with the reference library, `format` gives `None` for the mistyped number, the empty string and `None` |
| `CpfReference.MaskSample` | backend/modules/validation/cpf_validator.py:78-83 | the punctuated sample masks to `529****25` |
| `ConversationLog.LogMessagesEvents` | backend/core/logging.py:92-107 | the table `LogMessages` (the constant `LOG_MESSAGES`, copied entry by entry) knows exactly the fourteen listed events |
| `ConversationLog.LogMessagesAreNotEventNames` | backend/core/logging.py:92-107 | no message in the table equals any event name of the table |
| `ConversationLog.EventMessage` | backend/core/logging.py:131 | the message is the event name itself or one of the table's messages; for a known event it is that event's table message |
| `ConversationLog.EventMessageLookup` | backend/core/logging.py:131 | a known event gets its table message and any other event is logged under its own name; so the message differs from the event name exactly when the event is in the table |
| `ConversationLog.MaskDebtorCpf` | backend/core/logging.py:126-129 | for a raw string of at least 5 characters: 9 characters, its first three characters, then `****`, then its last two characters; for a shorter string: `***`; always length 9 or 3 |
| `ConversationLog.MaskDebtorCpfOfDigits` | backend/core/logging.py:128 | on a string made only of digits, this mask agrees with the validator's `_mask_cpf` |
| `ConversationLog.MaskDebtorCpfKeepsPunctuation` | backend/core/logging.py:128 | on punctuated input the two masks differ: `12.345` gives `12.****45` here and `123****45` in the validator; `1-2-3` gives `1-2****-3` here and `***` in the validator |
| `ConversationLog.LogConversationEvent` | backend/core/logging.py:110-132 | the message is the table lookup with the event name as fallback; the record's keys are exactly `event`, `session_id`, `language`, the context keys, and `debtor_cpf` exactly when that argument is non-empty; `event` and `session_id` equal the arguments; `language` is the context's value if the context has one, otherwise the default language; the other context entries are kept unchanged; `debtor_cpf` holds the raw-string mask |

## Left out

- The check-digit algorithm inside `validate_docbr` is an external library and is not part of the repository. It is the parameter `lib`. `CpfReference` is an independent stand-in, not the library's code.
- `DependsOnlyOnDigits` is an assumption taken from the source's comments. It is not a checked fact about `validate_docbr`, which is not part of this model.
- Digits are ASCII `'0'..'9'`. Python's `str.isdigit` also accepts other Unicode digits; this model does not.
- `Validate`: the `log_debug` call sits inside the `try`. If the logger itself raised, that would also turn the answer into `false`. The model treats logging as never raising.
- The logger calls are not modelled. Records are returned rather than emitted. The structlog/rich setup (`configure_logging`), `get_logger` and the `LoggerMixin` wrappers are library setup and side effects. In `validate` their result is not used.
- `LogConversationEvent`: the final `logger.info(message, **log_data)` (logging.py:132) is not modelled. structlog's `info` takes `event` as its first parameter, and `log_data` always holds an `event` key, so that call would likely fail with a duplicate-argument `TypeError`. structlog is not part of this model and this was not executed; the model stops at the message and record handed to the call.
- `LogConversationEvent`: context values are a `Value` datatype (a string, or any other Python value known only by its text). Python's `Any` values are not modelled further. A `debtor_cpf` that is not `None` and not a string is not modelled.
- Settings loading (`backend/core/settings.py`) is not modelled. The one value needed, the default language, is a parameter.
- The Redis wrapper (`backend/core/redis.py`), the database wiring (`backend/core/database.py`), the web entry points (`backend/main.py`, `mock_crm/main.py`) and `backend/models/__init__.py` are plumbing over external services with no logic of their own.
- The global `cpf_validator` instance and the constructor are not modelled. The validator's only field is set once and never changed, so the operations are functions.
