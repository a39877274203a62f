/** The bot's three fixed replies. */
module BotReplies {
  import opened Text

  /** Sent when no entry matched or no answer could be generated for a question. */
  const FallbackReply: string := "К сожалению, я не нашел точной информации по вашему вопросу в нашей базе знаний 😔\n\nПожалуйста, обратитесь к нашему менеджеру для получения подробной консультации. Мы обязательно поможем! \n\n📞 Менеджер ответит в рабочее время\n💬 Или опишите вопрос подробнее"

  /** Sent for any other message that no entry answers. */
  const GeneralHelpReply: string := "Привет! 👋 Я бот-помощник нашей компании.\n\nЯ могу помочь с:\n• Информацией о товарах и услугах\n• Условиями заказа и доставки  \n• Способами оплаты\n• Гарантийными вопросами\n\nПросто задайте ваш вопрос, и я постараюсь помочь! 😊"

  /** Sent when processing a message fails. */
  const ErrorReply: string := "Извините, произошла техническая ошибка ⚠️\n\nПожалуйста, попробуйте повторить запрос через несколько минут или обратитесь к нашему менеджеру.\n\nПриносим извинения за неудобства! 🙏"

  /** The three replies as one value, the way the bot carries them. */
  datatype Replies = Replies(fallback: string, generalHelp: string, error: string)

  const Fixed := Replies(FallbackReply, GeneralHelpReply, ErrorReply)

  /** The three replies are different texts. */
  lemma RepliesDistinct()
    ensures FallbackReply != GeneralHelpReply
    ensures FallbackReply != ErrorReply
    ensures GeneralHelpReply != ErrorReply
  {
    assert |FallbackReply| == 254 && |GeneralHelpReply| == 221 && |ErrorReply| == 176;
  }
}
