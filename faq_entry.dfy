/** The knowledge-base record and the built-in default collection. */
module FaqEntry {

  /** One question/answer record of the knowledge base. */
  datatype FaqItem = FaqItem(id: int, question: string, answer: string, keywords: seq<string>)

  /** True when some entry of `data` carries `id`. */
  predicate HasId(data: seq<FaqItem>, id: int) {
    exists i | 0 <= i < |data| :: data[i].id == id
  }

  /** The five entries written when no knowledge-base document exists
      (ordering, payment, delivery, warranty, support). */
  const DefaultFaq: seq<FaqItem> := [
    FaqItem(1, "Как оформить заказ?",
      "Для оформления заказа свяжитесь с нашим менеджером или оставьте заявку на сайте. Мы перезвоним в течение 30 минут! 📞",
      ["заказ", "оформить", "купить", "заказать"]),
    FaqItem(2, "Какие способы оплаты доступны?",
      "Мы принимаем наличные, банковские карты, переводы и онлайн-платежи. Выберите удобный способ! 💳",
      ["оплата", "способы", "платить", "деньги", "карта"]),
    FaqItem(3, "Сколько времени занимает доставка?",
      "Доставка по городу занимает 1-2 дня, по области 2-3 дня. Точные сроки уточняйте у менеджера! 🚚",
      ["доставка", "сроки", "время", "когда", "быстро"]),
    FaqItem(4, "Есть ли гарантия на товар?",
      "Да! На все товары предоставляется официальная гарантия производителя. Подробности уточняйте при заказе ✅",
      ["гарантия", "warranty", "качество", "замена"]),
    FaqItem(5, "Как связаться с поддержкой?",
      "Вы можете написать нам здесь в WhatsApp, позвонить или отправить email. Мы всегда на связи! 📞📧",
      ["поддержка", "связаться", "контакты", "телефон", "помощь"])
  ]
}
