/**
 * The Telegram handlers `start` and `handle_message` over the per-chat
 * authorisation map `USER_STATE`.
 *
 * The outside world enters as inputs: the spreadsheet service's answer, the
 * text the language model returns, and the Unicode tables. What a handler
 * does is returned as an `Action`, which also tells which external calls it
 * made (a fetch, a model call, the history clean-up).
 */
module ChatBot {
  import opened Strings
  import opened Sanitizer
  import opened Sheets

  /** The only value ever stored in the map. */
  const Authorized := "authorized"

  /** Accepted names, compared after trimming and lower-casing. */
  const AuthorizedUsers: set<string> := {"raphael", "mariana", "nilza", "matheus"}

  /** The two captions of the menu keyboard. */
  const ExpiryButton := "📅 Vigência do contrato 71"
  const ClearButton := "🗑 Limpar histórico"

  /** The captions as the router compares them: lower-cased. */
  const ExpiryCommand := "📅 vigência do contrato 71"
  const ClearCommand := "🗑 limpar histórico"

  /** The fixed replies. */
  const WelcomeText :=
    "👋 Olá! Sou um bot que analisa dados dos contratos. Antes de continuar, por favor, me diga seu nome:"
  const GrantedText := "✅ Acesso autorizado! Como posso te ajudar?"
  const DeniedText := "❌ Usuário não autorizado. Você não pode interagir com o bot."
  const ExpiryText := "📌 O contrato 71 tem vigência até 29/04/2025."
  const SheetErrorPrefix := "⚠️ Erro ao acessar a planilha: "

  /** What one handler call does. */
  datatype Action =
    | Welcome                  // `start`: greets and asks for a name
    | AccessGranted            // accepted name: greeting with the menu keyboard
    | AccessDenied             // unknown chat, other text
    | ContractExpiry           // the fixed answer about contract 71
    | ClearHistory             // hands over to the history clean-up
    | SheetError(detail: string)  // the sheet fetch returned a string
    | Answer(text: string)     // the sanitised answer of the model
  {
    /** The spreadsheet was read. */
    predicate Fetches()
    {
      SheetError? || Answer?
    }

    /** The language model was called. */
    predicate AsksModel()
    {
      Answer?
    }

    /** The reply carries the menu keyboard. */
    predicate ShowsMenu()
    {
      AccessGranted?
    }
  }

  /** The text the handler sends for an action; the clean-up sends its own. */
  function ReplyText(a: Action): (text: string)
    requires !a.ClearHistory?
    ensures a.SheetError? ==> |a.detail| <= |text| && text[|text| - |a.detail|..] == a.detail
    ensures a.Answer? ==> text == a.text
  {
    match a
    case Welcome => WelcomeText
    case AccessGranted => GrantedText
    case AccessDenied => DeniedText
    case ContractExpiry => ExpiryText
    case SheetError(detail) =>
      var text := SheetErrorPrefix + detail;
      assert text[|SheetErrorPrefix|..] == detail;
      text
    case Answer(text) => text
  }

  /** The reply to a failed fetch is the error prefix followed by the fetch's text. */
  lemma SheetErrorReply(detail: string)
    ensures ReplyText(SheetError(detail)) == SheetErrorPrefix + detail
  {
  }

  /** `text.strip().lower()`: the lower-cased piece of the text that is left
      once the whitespace around it is cut off. */
  function Normalize(t: Tables, text: string): (r: string)
    ensures exists i, j ::
              0 <= i <= j <= |text| && r == t.lower(text[i..j]) &&
              AllSpace(t, text[..i]) && AllSpace(t, text[j..]) && IsTrimmed(t, text[i..j])
  {
    StripIsSlice(t, text);
    t.lower(Strip(t, text))
  }

  /** Text without surrounding whitespace is only lower-cased. */
  lemma NormalizeTrimmed(t: Tables, text: string)
    requires IsTrimmed(t, text)
    ensures Normalize(t, text) == t.lower(text)
  {
    StripFixedPoint(t, text);
  }

  /** Tables under which the two menu captions lower-case to the strings the
      router compares against; Python's do. */
  predicate ReadsMenu(t: Tables)
  {
    IsTrimmed(t, ExpiryButton) && t.lower(ExpiryButton) == ExpiryCommand &&
    IsTrimmed(t, ClearButton) && t.lower(ClearButton) == ClearCommand
  }

  /** Pressing a menu button sends a caption that the router recognises. */
  lemma MenuButtonsNormalize(t: Tables)
    requires ReadsMenu(t)
    ensures Normalize(t, ExpiryButton) == ExpiryCommand
    ensures Normalize(t, ClearButton) == ClearCommand
  {
    NormalizeTrimmed(t, ExpiryButton);
    NormalizeTrimmed(t, ClearButton);
  }

  /** The bot's only state: `USER_STATE`, from chat id to status. */
  class Bot {
    var userState: map<int, string>

    /** Every entry is "authorized": a chat is either authorised or absent. */
    ghost predicate Valid()
      reads this
    {
      forall id | id in userState :: userState[id] == Authorized
    }

    constructor ()
      ensures Valid() && userState == map[]
    {
      userState := map[];
    }

    /** `/start`: forgets the chat, whatever its state was. */
    method Start(chatId: int) returns (a: Action)
      requires Valid()
      modifies this
      ensures Valid()
      ensures userState == old(userState) - {chatId}
      ensures chatId !in userState
      ensures forall id | id != chatId :: (id in userState <==> id in old(userState))
      ensures a == Welcome
    {
      userState := userState - {chatId};
      a := Welcome;
    }

    /** An incoming text message. `response` is what the spreadsheet service
        would answer and `modelText` what the language model would return;
        the action says whether they were used. */
    method HandleMessage(t: Tables, chatId: int, text: string, response: SheetsResponse, modelText: string)
      returns (a: Action)
      requires Valid()
      modifies this
      ensures Valid()
      // an unknown chat must send an accepted name
      ensures chatId !in old(userState) && Normalize(t, text) in AuthorizedUsers ==>
        userState == old(userState)[chatId := Authorized] && a == AccessGranted && a.ShowsMenu()
      ensures chatId !in old(userState) && Normalize(t, text) !in AuthorizedUsers ==>
        userState == old(userState) && a == AccessDenied
      // an authorised chat never changes the map
      ensures chatId in old(userState) ==> userState == old(userState)
      ensures chatId in old(userState) && Normalize(t, text) == ExpiryCommand ==> a == ContractExpiry
      ensures chatId in old(userState) && Normalize(t, text) == ClearCommand ==> a == ClearHistory
      ensures chatId in old(userState) && Normalize(t, text) !in {ExpiryCommand, ClearCommand} ==>
        a == match Fetch(response)
             case Message(m) => SheetError(m)
             case Rows(_) => Answer(Sanitize(t, modelText))
      ensures chatId in old(userState) && Normalize(t, text) !in {ExpiryCommand, ClearCommand} && IsError(Fetch(response)) ==>
        a.Fetches() && !a.AsksModel() && ReplyText(a) == SheetErrorPrefix + Fetch(response).text
      // the only write is "authorized", under the caller's own chat id
      ensures forall id | id in userState ::
        (id in old(userState) && userState[id] == old(userState)[id]) || (id == chatId && userState[id] == Authorized)
      ensures forall id | id in old(userState) :: id in userState
    {
      var userText := Normalize(t, text);
      CommandsDiffer();
      if chatId !in userState {
        if userText in AuthorizedUsers {
          userState := userState[chatId := Authorized];
          a := AccessGranted;
        } else {
          a := AccessDenied;
        }
        return;
      }
      if userText == ExpiryCommand {
        a := ContractExpiry;
        return;
      }
      if userText == ClearCommand {
        a := ClearHistory;
        return;
      }
      var data := Fetch(response);
      if IsError(data) {
        a := SheetError(data.text);
        SheetErrorReply(data.text);
        return;
      }
      a := Answer(Sanitize(t, modelText));
    }
  }

  /** `/start` followed by any message: the chat has to give its name again,
      whatever it was before. */
  method RestartThenMessage(bot: Bot, t: Tables, chatId: int, text: string, response: SheetsResponse, modelText: string)
    returns (a: Action)
    requires bot.Valid()
    modifies bot
    ensures bot.Valid()
    ensures a == (if Normalize(t, text) in AuthorizedUsers then AccessGranted else AccessDenied)
    ensures !a.Fetches() && !a.AsksModel()
    ensures chatId in bot.userState <==> a == AccessGranted
    ensures bot.userState ==
      if a == AccessGranted then (old(bot.userState) - {chatId})[chatId := Authorized]
      else old(bot.userState) - {chatId}
  {
    var welcome := bot.Start(chatId);
    a := bot.HandleMessage(t, chatId, text, response, modelText);
  }

  /** The two lower-cased captions are different strings, so each button
      reaches its own branch. */
  lemma CommandsDiffer()
    ensures ExpiryCommand != ClearCommand
  {
    assert ExpiryCommand[2] != ClearCommand[2];
  }

  /** An authorised chat that presses the expiry button gets the fixed answer
      about contract 71, whatever the services would have answered, and its
      state is untouched. */
  method PressExpiryButton(bot: Bot, t: Tables, chatId: int, response: SheetsResponse, modelText: string)
    returns (a: Action)
    requires bot.Valid() && chatId in bot.userState && ReadsMenu(t)
    modifies bot
    ensures bot.Valid() && bot.userState == old(bot.userState)
    ensures a == ContractExpiry && !a.Fetches() && !a.AsksModel()
    ensures ReplyText(a) == ExpiryText
  {
    MenuButtonsNormalize(t);
    a := bot.HandleMessage(t, chatId, ExpiryButton, response, modelText);
  }

  /** An authorised chat that presses the clean-up button is handed to the
      history clean-up and to nothing else. */
  method PressClearButton(bot: Bot, t: Tables, chatId: int, response: SheetsResponse, modelText: string)
    returns (a: Action)
    requires bot.Valid() && chatId in bot.userState && ReadsMenu(t)
    modifies bot
    ensures bot.Valid() && bot.userState == old(bot.userState)
    ensures a == ClearHistory && !a.Fetches() && !a.AsksModel()
  {
    MenuButtonsNormalize(t);
    CommandsDiffer();
    a := bot.HandleMessage(t, chatId, ClearButton, response, modelText);
  }

  /** An authorised chat's question whose fetch fails or finds no rows is
      answered with the error prefix followed by the `HttpError` text or the
      "no data" message, and the model is never asked. */
  method QueryWithFailedFetch(bot: Bot, t: Tables, chatId: int, text: string, response: SheetsResponse, modelText: string)
    returns (a: Action)
    requires bot.Valid() && chatId in bot.userState
    requires Normalize(t, text) != ExpiryCommand && Normalize(t, text) != ClearCommand
    requires IsError(Fetch(response))
    modifies bot
    ensures bot.Valid() && bot.userState == old(bot.userState)
    ensures a.Fetches() && !a.AsksModel()
    ensures ReplyText(a) == SheetErrorPrefix + (if response.HttpFailure? then response.error else NoDataMessage)
  {
    a := bot.HandleMessage(t, chatId, text, response, modelText);
  }
}
