/**
 * The decision half of `Updater.notify`: whether a message goes out, which of the
 * two templates it uses and the values its placeholders get. The text of the
 * templates is opaque; only their placeholders matter here.
 */
module Telegram {
  import opened Wrappers
  import opened Errors
  import opened Settings

  /** `TG_CREATED_MSG` and `TG_UPDATED_MSG`. */
  datatype Template = Created | Updated

  /** The named placeholders of each template, in the order they appear in its text. */
  function Placeholders(t: Template): (names: seq<string>)
    ensures |names| >= 2 && names[0] == "name" && names[|names| - 1] == "address"
    ensures "previous" in names <==> t == Updated
  {
    match t
    case Created => ["name", "address"]
    case Updated => ["name", "previous", "address"]
  }

  /**
   * Python's `str.format` on a template whose fields are all named: each placeholder
   * takes its value from the keyword arguments, and the first one missing raises a
   * `KeyError` for that name.
   */
  function FormatNamed(placeholders: seq<string>, kwargs: map<string, string>): (r: Result<map<string, string>, string>)
    ensures r.Success? <==> forall i :: 0 <= i < |placeholders| ==> placeholders[i] in kwargs
    ensures r.Success? ==>
              r.value.Keys == (set i | 0 <= i < |placeholders| :: placeholders[i]) &&
              forall p :: p in r.value ==> p in kwargs && r.value[p] == kwargs[p]
    ensures r.Failure? ==>
              exists k :: 0 <= k < |placeholders| && r.error == placeholders[k] && r.error !in kwargs &&
                          forall j :: 0 <= j < k ==> placeholders[j] in kwargs
  {
    if placeholders == [] then Success(map[])
    else if placeholders[0] !in kwargs then Failure(placeholders[0])
    else
      var rest := FormatNamed(placeholders[1..], kwargs);
      if rest.Failure? then
        assert exists k :: 0 <= k < |placeholders| - 1 && rest.error == placeholders[1..][k] && rest.error !in kwargs &&
                           forall j :: 0 <= j < k ==> placeholders[1..][j] in kwargs;
        var k :| 0 <= k < |placeholders| - 1 && rest.error == placeholders[1..][k] && rest.error !in kwargs &&
                 forall j :: 0 <= j < k ==> placeholders[1..][j] in kwargs;
        assert placeholders[k + 1] == rest.error;
        Failure(rest.error)
      else
        assert (set i | 0 <= i < |placeholders| :: placeholders[i]) ==
               {placeholders[0]} + (set i | 0 <= i < |placeholders| - 1 :: placeholders[1..][i]);
        Success(rest.value[placeholders[0] := kwargs[placeholders[0]]])
  }

  /** `notify` picks the "created" template exactly when `previous` is falsy (`None` or ""). */
  function TemplateFor(previous: Option<string>): (t: Template)
    ensures "previous" in Placeholders(t) <==> previous.Some? && previous.value != ""
    ensures "name" in Placeholders(t) && "address" in Placeholders(t)
  {
    if previous == None || previous == Some("") then Created else Updated
  }

  /** The `data` mapping of `notify`, after "previous" is deleted for the created template. */
  function TemplateData(hostname: string, address: string, previous: Option<string>): (data: map<string, string>)
    ensures "name" in data && data["name"] == hostname
    ensures "address" in data && data["address"] == address
    ensures "previous" in data <==> previous.Some? && previous.value != ""
    ensures "previous" in data ==> data["previous"] == previous.value
    ensures forall p :: p in data ==> p in Placeholders(TemplateFor(previous))
  {
    if TemplateFor(previous) == Created then map["name" := hostname, "address" := address]
    else map["name" := hostname, "address" := address, "previous" := previous.value]
  }

  /** One `send_message` call: bot token, chat, template and placeholder values. */
  datatype Message = Message(token: string, chatId: int, template: Template, fields: map<string, string>)

  /**
   * Formatting a template by keyword from its own `data` mapping never misses a
   * placeholder and gives every placeholder exactly its `data` value.
   */
  lemma KeywordFormatFillsData(hostname: string, address: string, previous: Option<string>)
    ensures var data := TemplateData(hostname, address, previous);
            FormatNamed(Placeholders(TemplateFor(previous)), data) == Success(data)
  {
    var template := TemplateFor(previous);
    var data := TemplateData(hostname, address, previous);
    var fields := FormatNamed(Placeholders(template), data);
    assert (set i | 0 <= i < |Placeholders(template)| :: Placeholders(template)[i]) == data.Keys by {
      if template == Created {
        assert Placeholders(template)[0] == "name" && Placeholders(template)[1] == "address";
      } else {
        assert Placeholders(template)[0] == "name" && Placeholders(template)[1] == "previous";
        assert Placeholders(template)[2] == "address";
      }
    }
    assert fields.value == data;
  }

  /**
   * The message `notify` sends once the template is filled by keyword: none without
   * a telegram configuration; otherwise the created template (hostname and address)
   * when `previous` is falsy and the updated one (hostname, previous and address)
   * when it is not.
   */
  function NotifyMessage(telegram: Option<TelegramConfig>, hostname: string, address: string, previous: Option<string>)
    : (r: Option<Message>)
    ensures r.Some? <==> telegram.Some?
    ensures r.Some? ==> r.value.token == telegram.value.token && r.value.chatId == telegram.value.chatId
    ensures r.Some? ==> (r.value.template == Created <==> previous == None || previous == Some(""))
    ensures r.Some? && r.value.template == Created ==>
              r.value.fields == map["name" := hostname, "address" := address]
    ensures r.Some? && r.value.template == Updated ==>
              r.value.fields == map["name" := hostname, "previous" := previous.value, "address" := address]
  {
    if telegram.None? then None
    else Some(Message(telegram.value.token, telegram.value.chatId, TemplateFor(previous), TemplateData(hostname, address, previous)))
  }

  /** What the call to `notify` comes to: nothing sent, one message sent, or an exception. */
  datatype NotifyOutcome = Silent | Sends(message: Message) | Raises(crash: Crash)

  /**
   * `notify` as written: `template.format(data)` hands `data` over as one positional
   * argument, so no placeholder has a keyword value.
   */
  function NotifyAsWritten(telegram: Option<TelegramConfig>, hostname: string, address: string, previous: Option<string>)
    : (r: NotifyOutcome)
    ensures r.Silent? <==> telegram.None?
    ensures r.Raises? ==> r.crash.KeyError? && r.crash.key in Placeholders(TemplateFor(previous))
  {
    match telegram
    case None => Silent
    case Some(bot) =>
      var template := TemplateFor(previous);
      match FormatNamed(Placeholders(template), map[])
      case Success(fields) => Sends(Message(bot.token, bot.chatId, template, fields))
      case Failure(key) => Raises(KeyError(key))
  }

  /**
   * As written, every notification with a telegram configuration raises
   * `KeyError('name')` and sends nothing, where the keyword form sends its message.
   */
  lemma FormatAsWrittenFails(telegram: Option<TelegramConfig>, hostname: string, address: string, previous: Option<string>)
    requires telegram.Some?
    ensures NotifyAsWritten(telegram, hostname, address, previous) == Raises(KeyError("name"))
    ensures NotifyMessage(telegram, hostname, address, previous).Some?
  {
    var template := TemplateFor(previous);
    assert Placeholders(template)[0] == "name";
  }
}
