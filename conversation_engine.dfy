// The rule-based chat partner (domain/conversation/ConversationEngine.kt): a
// current topic that `setTopic` / `getRandomTopic` replace, and `generateReply`,
// which classifies the lower-cased, trimmed input in a fixed priority order and
// answers from per-topic reply tables with default fallbacks. Every `random()`
// pick from a list is the entry at `pick % |list|` for a `pick` passed in.
module ConversationEngine {
  import opened Wrappers
  import opened Text

  datatype Topic = Topic(id: string, title: string, titleZh: string, greeting: string, greetingZh: string)

  /** An English reply and its Chinese translation (`Pair<String, String>`). */
  datatype Reply = Reply(en: string, zh: string)

  /** One `if (input.contains(..) || ..) return reply(..)` of a topic reply
    * function: the keywords and the reply they select. */
  datatype Rule = Rule(keywords: seq<string>, reply: Reply)

  /** What `generateReply` recognised, in its order of priority. */
  datatype Intent = Greeting | Goodbye | Thanks | Affirmative | Negative | Question | TopicTalk

  // ---------------------------------------------------------------------------
  // Keyword lists

  const GreetingWords: seq<string> := ["hello", "hi", "hey", "good morning", "good afternoon", "good evening", "how are you"]
  const GoodbyeWords: seq<string> := ["bye", "goodbye", "see you", "take care", "have a nice day", "good night", "gotta go"]
  const ThankWords: seq<string> := ["thank", "thanks", "appreciate", "grateful"]
  const YesWords: seq<string> := ["yes", "yeah", "yep", "sure", "of course", "definitely", "absolutely", "okay", "ok"]
  const NoWords: seq<string> := ["no", "nope", "not really", "nah"]
  const QuestionStarters: seq<string> :=
    ["what", "where", "when", "why", "how", "who", "which", "can", "could", "would", "do", "does", "is", "are"]
  const PriceWords: seq<string> := ["how much", "price", "cost"]
  const TimeWords: seq<string> := ["what time", "when", "how long"]
  const LocationWords: seq<string> := ["where", "location", "find"]
  const RecommendWords: seq<string> := ["recommend", "suggest", "best", "popular"]

  // ---------------------------------------------------------------------------
  // Tables

  /** The eight topics, in the order of the source list. */
  const Topics: seq<Topic> := [
    Topic("cafe", "At the Cafe", "在咖啡廳",
      "Hi! Welcome to Bear Cafe. What can I get you today?",
      "嗨！歡迎來到 Bear 咖啡廳。今天想要什麼呢？"),
    Topic("hotel", "Hotel Check-in", "飯店入住",
      "Good evening! Welcome to our hotel. Do you have a reservation?",
      "晚安！歡迎光臨我們的飯店。您有預約嗎？"),
    Topic("shopping", "Shopping", "購物",
      "Hello! Welcome to our store. Are you looking for anything in particular?",
      "你好！歡迎來到我們的商店。您有在找什麼特別的東西嗎？"),
    Topic("restaurant", "At the Restaurant", "在餐廳",
      "Good evening! Welcome to our restaurant. Table for how many?",
      "晚安！歡迎光臨我們的餐廳。請問幾位？"),
    Topic("directions", "Asking for Directions", "問路",
      "Excuse me, you look a bit lost. Can I help you find something?",
      "不好意思，你看起來有點迷路了。需要我幫你找什麼嗎？"),
    Topic("doctor", "At the Doctor", "看醫生",
      "Hello! I am Dr. Bear. How are you feeling today?",
      "你好！我是熊醫生。你今天感覺怎麼樣？"),
    Topic("airport", "At the Airport", "在機場",
      "Good morning! May I see your passport and boarding pass, please?",
      "早安！請出示您的護照和登機證好嗎？"),
    Topic("daily", "Daily Chat", "日常聊天",
      "Hey! How is it going? Nice weather today, right?",
      "嘿！最近怎麼樣？今天天氣不錯，對吧？")
  ]

  /** `getGreetingReply`: one is picked. */
  const GreetingReplies: seq<Reply> := [
    Reply("Hello! Nice to meet you! How can I help you today?",
          "你好！很高興認識你！今天有什麼可以幫忙的嗎？"),
    Reply("Hi there! Great to see you. What brings you here?",
          "嗨！很高興見到你。什麼風把你吹來的？"),
    Reply("Hey! I am doing well, thanks. How about you?",
          "嘿！我很好，謝謝。你呢？"),
    Reply("Good to see you! I hope you are having a wonderful day.",
          "很高興見到你！希望你今天過得很好。"),
    Reply("Hi! Welcome! Is there anything I can do for you?",
          "嗨！歡迎！有什麼我可以為你效勞的嗎？")
  ]

  /** `getGoodbyeReply`: one is picked. */
  const GoodbyeReplies: seq<Reply> := [
    Reply("Goodbye! It was nice talking to you. Have a great day!",
          "再見！很高興和你聊天。祝你有美好的一天！"),
    Reply("See you later! Take care and come back anytime!",
          "再見！保重，隨時歡迎回來！"),
    Reply("Bye! I hope you enjoyed our conversation. See you next time!",
          "再見！希望你喜歡我們的對話。下次見！"),
    Reply("Take care! It was a pleasure chatting with you.",
          "保重！很高興和你聊天。"),
    Reply("Goodbye! Have a wonderful rest of your day!",
          "再見！祝你接下來的一天過得愉快！")
  ]

  /** `getThankYouReply`: one is picked. */
  const ThankYouReplies: seq<Reply> := [
    Reply("You are welcome! Happy to help anytime.",
          "不客氣！隨時樂意幫忙。"),
    Reply("No problem at all! Let me know if you need anything else.",
          "完全沒問題！如果還需要什麼就告訴我。"),
    Reply("My pleasure! Is there anything else I can do for you?",
          "我的榮幸！還有其他我能幫忙的嗎？"),
    Reply("Anytime! I am glad I could help.",
          "隨時！很高興能幫上忙。")
  ]

  // The per-topic lists of `getYesFollowUp`.
  const YesCafe: seq<Reply> := [
    Reply("Great choice! Would you like that for here or to go?",
          "好選擇！您要內用還是外帶？"),
    Reply("Sure thing! What size would you like? Small, medium, or large?",
          "沒問題！您要什麼尺寸？小杯、中杯還是大杯？"),
    Reply("Perfect! Should I add any milk or sugar?",
          "完美！需要加牛奶或糖嗎？")
  ]

  const YesHotel: seq<Reply> := [
    Reply("Wonderful! Let me look up your reservation. What name is it under?",
          "太好了！讓我查一下您的預約。是用什麼名字訂的？"),
    Reply("Great! Your room is ready. Here is your key card.",
          "太好了！您的房間已經準備好了。這是您的房卡。"),
    Reply("Perfect! Would you like a room with a view?",
          "完美！您想要有景觀的房間嗎？")
  ]

  const YesShopping: seq<Reply> := [
    Reply("Excellent! Let me show you our latest collection.",
          "太好了！讓我帶您看我們最新的系列。"),
    Reply("Great! We have some amazing deals today. Want to see them?",
          "太好了！我們今天有一些很棒的優惠。要看看嗎？"),
    Reply("Sure! What size do you wear? I will find the perfect fit.",
          "好的！您穿什麼尺碼？我幫您找到最合適的。")
  ]

  const YesRestaurant: seq<Reply> := [
    Reply("Excellent! Right this way, please. Here is the menu.",
          "太好了！這邊請。這是菜單。"),
    Reply("Perfect! Tonight special is grilled salmon. Would you like to try it?",
          "完美！今晚的特餐是烤鮭魚。要試試看嗎？"),
    Reply("Great! Can I start you off with something to drink?",
          "好的！先來點飲料嗎？")
  ]

  const YesDirections: seq<Reply> := [
    Reply("Sure! Just go straight for two blocks, then turn left.",
          "好的！直走兩個街區，然後左轉。"),
    Reply("Of course! It is about a 10-minute walk from here.",
          "當然！從這裡走大約10分鐘。"),
    Reply("No problem! Take the first right, and it will be on your left side.",
          "沒問題！第一個路口右轉，就在你的左手邊。")
  ]

  const YesDoctor: seq<Reply> := [
    Reply("I see. Can you tell me more about your symptoms?",
          "我了解了。能告訴我更多關於你的症狀嗎？"),
    Reply("Alright. Let me check your temperature first.",
          "好的。讓我先量一下你的體溫。"),
    Reply("Okay. Have you been taking any medication recently?",
          "好的。你最近有在吃什麼藥嗎？")
  ]

  const YesAirport: seq<Reply> := [
    Reply("Thank you. Everything looks good. Your gate is B12.",
          "謝謝。一切沒問題。您的登機門是B12。"),
    Reply("Perfect. Would you like a window or aisle seat?",
          "完美。您想要靠窗還是靠走道的座位？"),
    Reply("Great! Do you have any luggage to check in?",
          "好的！您有需要託運的行李嗎？")
  ]

  /** `getYesFollowUp`: a list per topic, from which one reply is picked. */
  const YesFollowUps: map<string, seq<Reply>> := map[
    "cafe" := YesCafe,
    "hotel" := YesHotel,
    "shopping" := YesShopping,
    "restaurant" := YesRestaurant,
    "directions" := YesDirections,
    "doctor" := YesDoctor,
    "airport" := YesAirport
  ]

  const YesDefaults: seq<Reply> := [
    Reply("That is great to hear! Tell me more about it.",
          "很高興聽到！多告訴我一些。"),
    Reply("Sounds good! What else is on your mind?",
          "聽起來不錯！還有什麼想聊的嗎？"),
    Reply("Wonderful! I would love to hear more about that.",
          "太棒了！我很想聽更多。")
  ]

  /** `getNoFollowUp`: one reply per topic. */
  const NoFollowUps: map<string, Reply> := map[
    "cafe" := Reply("No worries! Would you like to take a look at our menu first?",
      "沒關係！要先看看我們的菜單嗎？"),
    "hotel" := Reply("No problem! We do have rooms available. Would you like to book one?",
      "沒問題！我們有空房。您想訂一間嗎？"),
    "shopping" := Reply("That is fine! Feel free to browse around.",
      "沒關係！請隨意逛逛。"),
    "restaurant" := Reply("No problem! Would you like a few more minutes to decide?",
      "沒問題！需要再多幾分鐘考慮嗎？"),
    "directions" := Reply("Okay, no worries! Is there somewhere else you need to go?",
      "好的，沒關係！你是要去其他地方嗎？"),
    "doctor" := Reply("Alright. Are there any other symptoms you have noticed?",
      "好的。你有注意到其他症狀嗎？"),
    "airport" := Reply("Okay. Is there anything else I can help you with?",
      "好的。還有什麼需要幫忙的嗎？")
  ]

  const NoDefault: Reply := Reply("That is okay! Is there something else you would like to talk about?",
      "沒關係！有其他想聊的嗎？")

  /** `getPriceReply`. */
  const PriceReplies: map<string, Reply> := map[
    "cafe" := Reply("A regular coffee is 3.50 and a latte is 4.50. We also have pastries starting at 2 dollars.",
      "一般咖啡是3.50美元，拿鐵是4.50美元。我們也有2美元起的糕點。"),
    "hotel" := Reply("Our standard room is 120 per night, and the deluxe suite is 250. Breakfast is included.",
      "我們的標準房每晚120美元，豪華套房250美元。含早餐。"),
    "shopping" := Reply("This item is 29.99. But we have a buy-one-get-one-half-off promotion today!",
      "這件商品29.99美元。但我們今天有買一送半價的促銷活動！"),
    "restaurant" := Reply("The main courses range from 15 to 30 dollars. Our lunch special is only 12.",
      "主菜價格從15美元到30美元不等。我們的午餐特餐只要12美元。")
  ]

  const PriceDefault: Reply := Reply("That is a great question! Let me find out the details for you.",
      "好問題！讓我幫你查一下細節。")

  /** `getTimeReply`. */
  const TimeReplies: map<string, Reply> := map[
    "cafe" := Reply("We are open from 7 AM to 9 PM every day. Your order should be ready in about 5 minutes.",
      "我們每天早上7點到晚上9點營業。您的餐點大約5分鐘就好。"),
    "hotel" := Reply("Check-in is at 3 PM and check-out is at 11 AM. The pool is open until 10 PM.",
      "入住時間是下午3點，退房是上午11點。游泳池開放到晚上10點。"),
    "restaurant" := Reply("We are open for lunch from 11:30 to 2:30, and dinner from 5:30 to 10.",
      "我們午餐是11:30到2:30，晚餐是5:30到10點。"),
    "airport" := Reply("Your flight departs at 3:45 PM. Boarding begins about 30 minutes before.",
      "您的航班下午3:45起飛。登機大約在起飛前30分鐘開始。"),
    "doctor" := Reply("The doctor will be with you in about 10 minutes.",
      "醫生大約10分鐘後來看你。")
  ]

  const TimeDefault: Reply := Reply("Good question! Let me check on that for you right away.",
      "好問題！讓我馬上幫你查一下。")

  /** `getLocationReply`. */
  const LocationReplies: map<string, Reply> := map[
    "hotel" := Reply("The elevator is down the hall on your right. The restaurant is on the ground floor.",
      "電梯在走廊右邊。餐廳在一樓。"),
    "shopping" := Reply("That section is on the second floor, near the escalator.",
      "那個區域在二樓，手扶梯附近。"),
    "airport" := Reply("The gate is in Terminal 2. Follow the signs for international departures.",
      "登機門在第二航廈。跟著國際出發的指示走。"),
    "directions" := Reply("It is about two blocks down this street, on the corner.",
      "就在這條街往下走大約兩個街區的轉角。")
  ]

  const LocationDefault: Reply := Reply("Let me help you! What exactly are you looking for?",
      "讓我幫你！你具體在找什麼？")

  /** `getRecommendReply`. */
  const RecommendReplies: map<string, Reply> := map[
    "cafe" := Reply("I highly recommend our caramel latte. It is our most popular drink!",
      "我大力推薦我們的焦糖拿鐵。這是最受歡迎的飲料！"),
    "restaurant" := Reply("Our chef special today is the grilled salmon with roasted vegetables. Delicious!",
      "我們主廚今天的特餐是烤鮭魚配烤蔬菜。非常好吃！"),
    "shopping" := Reply("Our best-selling item this month is this jacket. Very comfortable and stylish!",
      "這個月最暢銷的是這件外套。非常舒適又時尚！")
  ]

  const RecommendDefault: Reply := Reply("Great question! I would personally recommend the most popular option.",
      "好問題！我個人建議最受歡迎的選項。")

  /** The generic answers of `getQuestionReply`: one is picked. */
  const GenericAnswers: seq<Reply> := [
    Reply("That is a really good question! Let me think about that.",
          "這是個很好的問題！讓我想一下。"),
    Reply("Great question! I would say the best approach is to start simple.",
          "好問題！我覺得最好的方式是從簡單的開始。"),
    Reply("Hmm, let me see... It depends on what you are looking for.",
          "嗯，讓我看看……取決於你在找什麼。"),
    Reply("Interesting question! I would recommend a few different options.",
          "有趣的問題！我建議考慮幾個不同的選項。")
  ]

  /** The keyword rules of `getCafeReply`, tried in order. */
  const CafeRules: seq<Rule> := [
    Rule(["coffee", "latte", "cappuccino"],
      Reply("Great choice! We make our coffee with freshly roasted beans. Would you like any flavor shots?",
        "好選擇！我們的咖啡用的是現烘的咖啡豆。要加什麼口味的糖漿嗎？")),
    Rule(["tea", "green tea"],
      Reply("We have green tea, black tea, chamomile, and jasmine. Which one interests you?",
        "我們有綠茶、紅茶、洋甘菊茶和茉莉花茶。你對哪一種有興趣？")),
    Rule(["cake", "pastry", "muffin", "food"],
      Reply("Our chocolate cake is freshly baked today! We also have blueberry muffins.",
        "我們的巧克力蛋糕是今天剛烤好的！我們也有藍莓馬芬。")),
    Rule(["wifi", "internet"],
      Reply("Sure! Our WiFi password is bearcafe2024. Stay as long as you like!",
        "當然！我們的WiFi密碼是bearcafe2024。請隨意待多久都行！"))
  ]

  const CafeFallback: seq<Reply> := [Reply("Sounds good! Can I also interest you in one of our freshly baked pastries?",
          "聽起來不錯！要不要也試試我們新鮮烤好的糕點？")]

  /** The keyword rules of `getHotelReply`, tried in order. */
  const HotelRules: seq<Rule> := [
    Rule(["room", "bed", "suite"],
      Reply("We have single, double, and luxury suites. All include free WiFi and breakfast.",
        "我們有單人房、雙人房和豪華套房。都含免費WiFi和早餐。")),
    Rule(["breakfast", "food", "eat"],
      Reply("Breakfast is served from 6:30 to 10 AM on the first floor.",
        "早餐在一樓供應，時間是早上6:30到10:00。")),
    Rule(["pool", "gym", "spa"],
      Reply("Our pool and fitness center are on the 3rd floor, open from 6 AM to 10 PM.",
        "游泳池和健身中心在3樓，早上6點到晚上10點開放。"))
  ]

  const HotelFallback: seq<Reply> := [Reply("Is there anything else you need during your stay?",
          "住宿期間還有什麼需要的嗎？")]

  /** The keyword rules of `getShoppingReply`, tried in order. */
  const ShoppingRules: seq<Rule> := [
    Rule(["try", "fitting", "size"],
      Reply("Absolutely! The fitting rooms are right over there.",
        "當然！試衣間就在那邊。")),
    Rule(["discount", "sale", "deal"],
      Reply("We are having a 20 percent off sale this week! Plus buy two get one free on selected items.",
        "我們這週有八折優惠。而且部分商品買二送一！")),
    Rule(["pay", "card", "cash"],
      Reply("We accept cash, credit cards, and mobile payments. Would you like a bag?",
        "我們接受現金、信用卡和行動支付。需要袋子嗎？"))
  ]

  const ShoppingFallback: seq<Reply> := [Reply("I think this would be a great choice! Want to try it on first?",
          "我覺得這個選擇很棒！要先試穿看看嗎？")]

  /** The keyword rules of `getRestaurantReply`, tried in order. */
  const RestaurantRules: seq<Rule> := [
    Rule(["order", "want", "get", "like"],
      Reply("Excellent choice! I will put that order in right away. Anything to drink?",
        "好選擇！我馬上幫您下單。要搭配什麼飲料嗎？")),
    Rule(["vegetarian", "vegan", "allergy"],
      Reply("We have several vegetarian options and can accommodate most allergies.",
        "我們有好幾道素食選擇，也能處理大部分的過敏問題。")),
    Rule(["bill", "check", "pay"],
      Reply("Of course! I will bring the check right over. Did you enjoy your meal?",
        "當然！我馬上拿帳單過來。您今天的餐點還滿意嗎？")),
    Rule(["water", "drink", "wine", "juice"],
      Reply("We have still and sparkling water, fresh juices, and a great wine selection.",
        "我們有靜水和氣泡水、新鮮果汁，還有很好的葡萄酒選擇。"))
  ]

  const RestaurantFallback: seq<Reply> := [Reply("Our kitchen will have it ready shortly. Can I get you a refill?",
          "我們的廚房很快就準備好。需要幫您續杯嗎？")]

  /** The keyword rules of `getDirectionsReply`, tried in order. */
  const DirectionsRules: seq<Rule> := [
    Rule(["station", "train", "subway", "bus"],
      Reply("The nearest station is about a 5-minute walk. Go straight and you will see it on your left.",
        "最近的車站步行大約5分鐘。直走你會在左手邊看到它。")),
    Rule(["far", "walk", "distance"],
      Reply("It is about a 15-minute walk. You could also take a taxi, about 5 minutes.",
        "從這裡走大約15分鐘。你也可以搭計程車，大約5分鐘。")),
    Rule(["lost", "help", "confused"],
      Reply("No worries! Where are you trying to go? I will walk you through it.",
        "別擔心！你要去哪裡？我一步一步帶你。"))
  ]

  const DirectionsFallback: seq<Reply> := [Reply("Let me help you! Which direction are you heading?",
          "讓我幫你！你要往哪個方向？")]

  /** The keyword rules of `getDoctorReply`, tried in order. */
  const DoctorRules: seq<Rule> := [
    Rule(["headache", "head", "pain", "hurt"],
      Reply("How long have you had the headache? Have you taken any pain medication?",
        "頭痛多久了？有吃什麼止痛藥嗎？")),
    Rule(["cold", "cough", "fever", "flu"],
      Reply("It sounds like a cold. I will prescribe some medicine. Make sure to rest and drink water.",
        "聽起來像感冒。我會開一些藥。記得要好好休息，多喝水。")),
    Rule(["tired", "sleep", "exhausted"],
      Reply("Fatigue can be caused by many things. Are you getting enough sleep?",
        "疲勞可能由很多原因造成。你有睡夠嗎？")),
    Rule(["stomach", "nausea"],
      Reply("Have you eaten anything unusual recently? I will give you some medicine.",
        "你最近有吃什麼特別的東西嗎？我會開一些藥。"))
  ]

  const DoctorFallback: seq<Reply> := [Reply("Thank you for telling me. I would like to run a few tests to make sure everything is okay.",
          "謝謝你告訴我。我想做幾個檢查確認一切正常。")]

  /** The keyword rules of `getAirportReply`, tried in order. */
  const AirportRules: seq<Rule> := [
    Rule(["luggage", "bag", "suitcase"],
      Reply("You are allowed one carry-on and one checked bag. Each up to 23 kilograms.",
        "您可以攜帶一件手提行李和一件託運行李。每件上限23公斤。")),
    Rule(["gate", "terminal", "boarding"],
      Reply("Your gate is B12 in Terminal 2. Boarding starts 30 minutes before departure.",
        "您的登機門在第二航廈B12。登機在起飛前30分鐘開始。")),
    Rule(["delay", "cancel", "late"],
      Reply("Sorry for the inconvenience. The flight is delayed by about 45 minutes.",
        "很抱歉造成不便。航班延誤了大約45分鐘。")),
    Rule(["shop", "store", "buy"],
      Reply("The duty-free shops are right after security, on the left side.",
        "免稅店就在安檢後的左側。"))
  ]

  const AirportFallback: seq<Reply> := [Reply("Your flight information looks good. Anything else you need before boarding?",
          "您的航班資訊沒問題。登機前還有什麼需要的嗎？")]

  /** The keyword rules of `getDailyReply`, tried in order. */
  const DailyRules: seq<Rule> := [
    Rule(["weather", "sunny", "rain"],
      Reply("Yes! The weather has been really nice lately. Perfect for going outside.",
        "是啊！最近天氣真的很好。很適合出門。")),
    Rule(["hobby", "free time", "fun", "weekend"],
      Reply("That sounds fun! I enjoy reading and walking. What do you do on weekends?",
        "聽起來很好玩！我喜歡看書和散步。你週末都做什麼？")),
    Rule(["work", "job", "busy"],
      Reply("Work can be stressful sometimes. It is important to take breaks.",
        "工作有時壓力很大。適當休息很重要。")),
    Rule(["food", "eat", "hungry", "lunch"],
      Reply("I love trying new food! Have you tried any good restaurants recently?",
        "我喜歡嘗試新食物！你最近有試過什麼好餐廳嗎？")),
    Rule(["movie", "music", "book", "game"],
      Reply("Oh, I love that topic! What kind do you enjoy? I am open to recommendations.",
        "噢，我喜歡這個話題！你喜歡什麼類型？隨時歡迎推薦。")),
    Rule(["travel", "trip", "vacation"],
      Reply("Traveling is the best! Where would you love to visit next?",
        "旅行是最棒的！你接下來最想去哪裡？"))
  ]

  const DailyFallback: seq<Reply> := [
    Reply("That is really interesting! Tell me more about that.",
          "真的很有趣！多告訴我一些。"),
    Reply("I see! That is a great point. What do you think about it?",
          "我懂了！很好的觀點。你怎麼看？"),
    Reply("Oh, cool! I would love to hear more.",
          "噢，真酷！我很想聽更多。"),
    Reply("That makes sense! By the way, have you been practicing English?",
          "很有道理！順便問一下，你有定期練習英文嗎？"),
    Reply("Nice! I enjoy chatting about these things. What else is new?",
          "很好！我喜歡聊這些。還有什麼新鮮事？")
  ]

  // ---------------------------------------------------------------------------
  // Classification

  /** `words.any { input.contains(it) }` */
  predicate ContainsAny(input: string, words: seq<string>) {
    exists k :: 0 <= k < |words| && Contains(input, words[k])
  }

  /** `words.any { w -> input == w || input.startsWith(w + " ") }` */
  predicate IsWordOrLeads(input: string, words: seq<string>) {
    exists k :: 0 <= k < |words| && (input == words[k] || StartsWith(input, words[k] + " "))
  }

  predicate StartsWithAny(input: string, words: seq<string>) {
    exists k :: 0 <= k < |words| && StartsWith(input, words[k])
  }

  predicate IsGreeting(input: string) { ContainsAny(input, GreetingWords) }
  predicate IsGoodbye(input: string) { ContainsAny(input, GoodbyeWords) }
  predicate IsThankYou(input: string) { ContainsAny(input, ThankWords) }
  predicate IsYes(input: string) { IsWordOrLeads(input, YesWords) }
  predicate IsNo(input: string) { IsWordOrLeads(input, NoWords) }
  predicate IsQuestion(input: string) { EndsWith(input, "?") || StartsWithAny(input, QuestionStarters) }

  /** The input as `generateReply` examines it: `userInput.lowercase().trim()`. */
  function Prepare(userInput: string): string {
    Trim(Lower(userInput))
  }

  /** The first test of `generateReply` that the input passes; the topic
    * rules answer exactly when none does. */
  function Classify(input: string): (r: Intent)
    ensures r == TopicTalk <==>
      !IsGreeting(input) && !IsGoodbye(input) && !IsThankYou(input) &&
      !IsYes(input) && !IsNo(input) && !IsQuestion(input)
  {
    if IsGreeting(input) then Greeting
    else if IsGoodbye(input) then Goodbye
    else if IsThankYou(input) then Thanks
    else if IsYes(input) then Affirmative
    else if IsNo(input) then Negative
    else if IsQuestion(input) then Question
    else TopicTalk
  }

  // ---------------------------------------------------------------------------
  // Replies

  /** `list.random()`, with the choice passed in. */
  function Pick(replies: seq<Reply>, pick: nat): (r: Reply)
    requires replies != []
    ensures r in replies
  {
    replies[pick % |replies|]
  }

  /** The reply of the first rule one of whose keywords occurs in the input,
    * or a pick from the fallback list when none does. */
  function FirstMatch(rules: seq<Rule>, input: string, fallback: seq<Reply>, pick: nat): (r: Reply)
    requires fallback != []
    ensures forall k :: (0 <= k < |rules| && ContainsAny(input, rules[k].keywords) &&
      (forall j :: 0 <= j < k ==> !ContainsAny(input, rules[j].keywords))) ==> r == rules[k].reply
    ensures (forall k :: 0 <= k < |rules| ==> !ContainsAny(input, rules[k].keywords)) ==> r == Pick(fallback, pick)
    decreases |rules|
  {
    if rules == [] then Pick(fallback, pick)
    else if ContainsAny(input, rules[0].keywords) then rules[0].reply
    else
      var r := FirstMatch(rules[1..], input, fallback, pick);
      assert forall k :: 1 <= k < |rules| ==> rules[k] == rules[1..][k - 1];
      r
  }

  function YesFollowUp(topicId: string, pick: nat): Reply {
    var replies := if topicId in YesFollowUps then YesFollowUps[topicId] else YesDefaults;
    Pick(replies, pick)
  }

  function NoFollowUp(topicId: string): Reply {
    if topicId in NoFollowUps then NoFollowUps[topicId] else NoDefault
  }

  function PriceReply(topicId: string): Reply {
    if topicId in PriceReplies then PriceReplies[topicId] else PriceDefault
  }

  function TimeReply(topicId: string): Reply {
    if topicId in TimeReplies then TimeReplies[topicId] else TimeDefault
  }

  function LocationReply(topicId: string): Reply {
    if topicId in LocationReplies then LocationReplies[topicId] else LocationDefault
  }

  function RecommendReply(topicId: string): Reply {
    if topicId in RecommendReplies then RecommendReplies[topicId] else RecommendDefault
  }

  /** `getQuestionReply`: price, time, location and recommendation questions
    * in that order, otherwise a generic answer. */
  function QuestionReply(topicId: string, input: string, pick: nat): Reply {
    if ContainsAny(input, PriceWords) then PriceReply(topicId)
    else if ContainsAny(input, TimeWords) then TimeReply(topicId)
    else if ContainsAny(input, LocationWords) then LocationReply(topicId)
    else if ContainsAny(input, RecommendWords) then RecommendReply(topicId)
    else Pick(GenericAnswers, pick)
  }

  /** `getTopicReply`: the current topic's keyword rules; any id other than
    * the seven named ones uses the daily-chat rules. */
  function TopicReply(topicId: string, input: string, pick: nat): Reply {
    if topicId == "cafe" then FirstMatch(CafeRules, input, CafeFallback, pick)
    else if topicId == "hotel" then FirstMatch(HotelRules, input, HotelFallback, pick)
    else if topicId == "shopping" then FirstMatch(ShoppingRules, input, ShoppingFallback, pick)
    else if topicId == "restaurant" then FirstMatch(RestaurantRules, input, RestaurantFallback, pick)
    else if topicId == "directions" then FirstMatch(DirectionsRules, input, DirectionsFallback, pick)
    else if topicId == "doctor" then FirstMatch(DoctorRules, input, DoctorFallback, pick)
    else if topicId == "airport" then FirstMatch(AirportRules, input, AirportFallback, pick)
    else FirstMatch(DailyRules, input, DailyFallback, pick)
  }

  /** The reply `generateReply` gives to an already prepared input: greetings,
    * goodbyes and thanks are answered from their own tables whatever the topic. */
  function ReplyFor(topicId: string, input: string, pick: nat): (r: Reply)
    ensures Classify(input) == Greeting ==> r in GreetingReplies
    ensures Classify(input) == Goodbye ==> r in GoodbyeReplies
    ensures Classify(input) == Thanks ==> r in ThankYouReplies
  {
    match Classify(input)
    case Greeting => Pick(GreetingReplies, pick)
    case Goodbye => Pick(GoodbyeReplies, pick)
    case Thanks => Pick(ThankYouReplies, pick)
    case Affirmative => YesFollowUp(topicId, pick)
    case Negative => NoFollowUp(topicId)
    case Question => QuestionReply(topicId, input, pick)
    case TopicTalk => TopicReply(topicId, input, pick)
  }

  /** `topics.find { it.id == topicId }`. */
  function Find(ts: seq<Topic>, topicId: string): (r: Option<Topic>)
    ensures r.Some? ==> r.value in ts && r.value.id == topicId
    ensures r.None? ==> forall k :: 0 <= k < |ts| ==> ts[k].id != topicId
    decreases |ts|
  {
    if ts == [] then None
    else if ts[0].id == topicId then Some(ts[0])
    else
      var r := Find(ts[1..], topicId);
      assert forall k :: 1 <= k < |ts| ==> ts[k] == ts[1..][k - 1];
      r
  }

  /** The topic `setTopic(topicId)` selects: the one with that id, or the
    * first topic when there is none. */
  function TopicWithId(topicId: string): (r: Topic)
    ensures r in Topics
    ensures (exists k :: 0 <= k < |Topics| && Topics[k].id == topicId) ==> r.id == topicId
    ensures (forall k :: 0 <= k < |Topics| ==> Topics[k].id != topicId) ==> r == Topics[0]
  {
    match Find(Topics, topicId)
    case Some(t) => t
    case None => Topics[0]
  }

  // ---------------------------------------------------------------------------
  // The engine

  class Engine {
    var currentTopic: Topic

    /** `currentTopic = topics.random()`. */
    constructor (choice: nat)
      requires choice < |Topics|
      ensures currentTopic == Topics[choice]
    {
      currentTopic := Topics[choice];
    }

    /** `getRandomTopic`: `topics[Random.nextInt(topics.size)]` becomes the
      * current topic and is returned. */
    method GetRandomTopic(choice: nat) returns (t: Topic)
      requires choice < |Topics|
      modifies this
      ensures currentTopic == Topics[choice] && t == currentTopic
    {
      currentTopic := Topics[choice];
      t := currentTopic;
    }

    method SetTopic(topicId: string)
      modifies this
      ensures currentTopic == TopicWithId(topicId)
    {
      var found := Find(Topics, topicId);
      currentTopic := if found.Some? then found.value else Topics[0];
    }

    /** `generateReply`: the history only feeds an unused turn count. */
    method GenerateReply(userInput: string, conversationHistory: seq<string>, pick: nat) returns (r: Reply)
      ensures r == ReplyFor(currentTopic.id, Prepare(userInput), pick)
      ensures NonBlank(r) && Solid(r)
    {
      var input := Prepare(userInput);
      var turnCount := |conversationHistory|;
      match Classify(input) {
        case Greeting => r := Pick(GreetingReplies, pick);
        case Goodbye => r := Pick(GoodbyeReplies, pick);
        case Thanks => r := Pick(ThankYouReplies, pick);
        case Affirmative => r := YesFollowUp(currentTopic.id, pick);
        case Negative => r := NoFollowUp(currentTopic.id);
        case Question => r := QuestionReply(currentTopic.id, input, pick);
        case TopicTalk => r := TopicReply(currentTopic.id, input, pick);
      }
      ReplyNonBlank(currentTopic.id, input, pick);
    }
  }

  // ---------------------------------------------------------------------------
  // Properties

  predicate NonBlank(r: Reply) {
    !IsBlank(r.en) && !IsBlank(r.zh)
  }

  /** Both halves end with a visible character. */
  predicate Solid(r: Reply) {
    Visible(r.en) && Visible(r.zh)
  }

  /** Ends with a printable ASCII character or one above U+3000 (CJK text and
    * full-width punctuation), which is never whitespace. */
  predicate Visible(s: string) {
    s != [] && (' ' < s[|s| - 1] < '\U{7F}' || s[|s| - 1] > '\U{3000}')
  }

  lemma SolidNonBlank(r: Reply)
    requires Solid(r)
    ensures NonBlank(r)
  {
    VisibleNotBlank(r.en);
    VisibleNotBlank(r.zh);
  }

  lemma GreetingTablesSolid()
    ensures forall k :: 0 <= k < |GreetingReplies| ==> Solid(GreetingReplies[k])
    ensures forall k :: 0 <= k < |GoodbyeReplies| ==> Solid(GoodbyeReplies[k])
    ensures forall k :: 0 <= k < |ThankYouReplies| ==> Solid(ThankYouReplies[k])
  {
  }

  predicate AllSolid(replies: seq<Reply>) {
    forall k :: 0 <= k < |replies| ==> Solid(replies[k])
  }

  lemma YesListsSolid()
    ensures AllSolid(YesCafe) && AllSolid(YesHotel) && AllSolid(YesShopping) && AllSolid(YesRestaurant)
  {
  }

  lemma MoreYesListsSolid()
    ensures AllSolid(YesDirections) && AllSolid(YesDoctor) && AllSolid(YesAirport) && AllSolid(YesDefaults)
  {
  }

  lemma YesListSolid(topicId: string)
    requires topicId in YesFollowUps
    ensures YesFollowUps[topicId] != [] && AllSolid(YesFollowUps[topicId])
  {
    YesListsSolid();
    MoreYesListsSolid();
  }

  lemma YesFollowUpSolid(topicId: string, pick: nat)
    ensures Solid(YesFollowUp(topicId, pick))
  {
    if topicId in YesFollowUps {
      YesListSolid(topicId);
    }
    var replies := if topicId in YesFollowUps then YesFollowUps[topicId] else YesDefaults;
    assert AllSolid(replies);
    assert Solid(replies[pick % |replies|]);
  }

  lemma NoFollowUpSolid(topicId: string)
    ensures Solid(NoFollowUp(topicId))
  {
    if topicId in NoFollowUps {
      assert topicId in {"cafe", "hotel", "shopping", "restaurant", "directions", "doctor", "airport"};
    }
  }

  lemma PriceReplySolid(topicId: string)
    ensures Solid(PriceReply(topicId))
  {
  }

  lemma TimeReplySolid(topicId: string)
    ensures Solid(TimeReply(topicId))
  {
  }

  lemma LocationReplySolid(topicId: string)
    ensures Solid(LocationReply(topicId))
  {
  }

  lemma RecommendReplySolid(topicId: string)
    ensures Solid(RecommendReply(topicId))
  {
  }

  lemma GenericAnswersSolid(pick: nat)
    ensures Solid(Pick(GenericAnswers, pick))
  {
  }

  predicate RulesSolid(rules: seq<Rule>, fallback: seq<Reply>) {
    fallback != [] &&
    (forall k :: 0 <= k < |rules| ==> Solid(rules[k].reply)) &&
    (forall k :: 0 <= k < |fallback| ==> Solid(fallback[k]))
  }

  lemma CafeRulesSolid()
    ensures RulesSolid(CafeRules, CafeFallback)
  {
  }

  lemma HotelRulesSolid()
    ensures RulesSolid(HotelRules, HotelFallback)
  {
  }

  lemma ShoppingRulesSolid()
    ensures RulesSolid(ShoppingRules, ShoppingFallback)
  {
  }

  lemma RestaurantRulesSolid()
    ensures RulesSolid(RestaurantRules, RestaurantFallback)
  {
  }

  lemma DirectionsRulesSolid()
    ensures RulesSolid(DirectionsRules, DirectionsFallback)
  {
  }

  lemma DoctorRulesSolid()
    ensures RulesSolid(DoctorRules, DoctorFallback)
  {
  }

  lemma AirportRulesSolid()
    ensures RulesSolid(AirportRules, AirportFallback)
  {
  }

  lemma DailyRulesSolid()
    ensures RulesSolid(DailyRules, DailyFallback)
  {
  }

  lemma {:induction false} FirstMatchSolid(rules: seq<Rule>, input: string, fallback: seq<Reply>, pick: nat)
    requires RulesSolid(rules, fallback)
    ensures Solid(FirstMatch(rules, input, fallback, pick))
    decreases |rules|
  {
    if rules != [] && !ContainsAny(input, rules[0].keywords) {
      FirstMatchSolid(rules[1..], input, fallback, pick);
    }
  }

  lemma QuestionReplySolid(topicId: string, input: string, pick: nat)
    ensures Solid(QuestionReply(topicId, input, pick))
  {
    PriceReplySolid(topicId);
    TimeReplySolid(topicId);
    LocationReplySolid(topicId);
    RecommendReplySolid(topicId);
    GenericAnswersSolid(pick);
  }

  lemma TopicReplySolid(topicId: string, input: string, pick: nat)
    ensures Solid(TopicReply(topicId, input, pick))
  {
    if topicId == "cafe" {
      CafeRulesSolid();
      FirstMatchSolid(CafeRules, input, CafeFallback, pick);
    } else if topicId == "hotel" {
      HotelRulesSolid();
      FirstMatchSolid(HotelRules, input, HotelFallback, pick);
    } else if topicId == "shopping" {
      ShoppingRulesSolid();
      FirstMatchSolid(ShoppingRules, input, ShoppingFallback, pick);
    } else if topicId == "restaurant" {
      RestaurantRulesSolid();
      FirstMatchSolid(RestaurantRules, input, RestaurantFallback, pick);
    } else if topicId == "directions" {
      DirectionsRulesSolid();
      FirstMatchSolid(DirectionsRules, input, DirectionsFallback, pick);
    } else if topicId == "doctor" {
      DoctorRulesSolid();
      FirstMatchSolid(DoctorRules, input, DoctorFallback, pick);
    } else if topicId == "airport" {
      AirportRulesSolid();
      FirstMatchSolid(AirportRules, input, AirportFallback, pick);
    } else {
      DailyRulesSolid();
      FirstMatchSolid(DailyRules, input, DailyFallback, pick);
    }
  }

  /** Whatever the topic id, the input and the pick, both halves of the reply
    * are non-blank. */
  lemma ReplyNonBlank(topicId: string, input: string, pick: nat)
    ensures Solid(ReplyFor(topicId, input, pick))
    ensures NonBlank(ReplyFor(topicId, input, pick))
  {
    GreetingTablesSolid();
    match Classify(input) {
      case Greeting =>
      case Goodbye =>
      case Thanks =>
      case Affirmative => YesFollowUpSolid(topicId, pick);
      case Negative => NoFollowUpSolid(topicId);
      case Question => QuestionReplySolid(topicId, input, pick);
      case TopicTalk => TopicReplySolid(topicId, input, pick);
    }
    SolidNonBlank(ReplyFor(topicId, input, pick));
  }

  /** Eight topics with distinct ids. */
  lemma TopicIdsDistinct()
    ensures |Topics| == 8
    ensures forall i, j :: 0 <= i < j < |Topics| ==> Topics[i].id != Topics[j].id
  {
    forall i, j | 0 <= i < j < |Topics|
      ensures Topics[i].id != Topics[j].id
    {
      assert |Topics[i].id| != |Topics[j].id| || Topics[i].id[0] != Topics[j].id[0];
    }
  }

  predicate TopicNonBlank(t: Topic) {
    !IsBlank(t.id) && !IsBlank(t.title) && !IsBlank(t.titleZh) && !IsBlank(t.greeting) && !IsBlank(t.greetingZh)
  }

  /** No field of a topic is blank. */
  lemma TopicsNonBlank()
    ensures forall k :: 0 <= k < |Topics| ==> TopicNonBlank(Topics[k])
  {
    forall k | 0 <= k < |Topics|
      ensures TopicNonBlank(Topics[k])
    {
      TopicVisible(k);
    }
  }

  lemma TopicVisible(k: nat)
    requires k < |Topics|
    ensures TopicNonBlank(Topics[k])
  {
    var t := Topics[k];
    assert Visible(t.id) && Visible(t.title) && Visible(t.titleZh) && Visible(t.greeting) && Visible(t.greetingZh);
    VisibleNotBlank(t.id);
    VisibleNotBlank(t.title);
    VisibleNotBlank(t.titleZh);
    VisibleNotBlank(t.greeting);
    VisibleNotBlank(t.greetingZh);
  }

  lemma VisibleNotBlank(s: string)
    requires Visible(s)
    ensures !IsBlank(s)
  {
    assert !IsWhitespace(s[|s| - 1]);
  }

  /** Selecting a topic by its id selects that topic. */
  lemma SelectById(k: nat)
    requires k < |Topics|
    ensures TopicWithId(Topics[k].id) == Topics[k]
  {
    TopicIdsDistinct();
    var t := TopicWithId(Topics[k].id);
    var j :| 0 <= j < |Topics| && Topics[j] == t;
    assert Topics[j].id == Topics[k].id;
  }

  /** The tests are tried in a fixed order: an input is classified by the
    * first one it passes. */
  lemma ClassifyPriority(input: string)
    ensures Classify(input) == Greeting <==> IsGreeting(input)
    ensures Classify(input) == Goodbye <==> !IsGreeting(input) && IsGoodbye(input)
    ensures Classify(input) == Thanks <==> !IsGreeting(input) && !IsGoodbye(input) && IsThankYou(input)
    ensures Classify(input) == Affirmative <==>
      !IsGreeting(input) && !IsGoodbye(input) && !IsThankYou(input) && IsYes(input)
    ensures Classify(input) == Negative <==>
      !IsGreeting(input) && !IsGoodbye(input) && !IsThankYou(input) && !IsYes(input) && IsNo(input)
    ensures Classify(input) == Question <==>
      !IsGreeting(input) && !IsGoodbye(input) && !IsThankYou(input) && !IsYes(input) && !IsNo(input) && IsQuestion(input)
  {
  }

  /** Greeting detection is by substring: anything containing "hi" (such as
    * "this" or "think") is answered as a greeting. */
  lemma ContainsHiIsGreeting(input: string)
    requires Contains(input, "hi")
    ensures Classify(input) == Greeting
  {
    assert GreetingWords[1] == "hi";
  }

  /** Which topics have an entry of their own in each keyed table; the others
    * get the table's default. */
  lemma KeyedTables(k: nat)
    requires k < |Topics|
    ensures Topics[k].id in YesFollowUps <==> k != 7
    ensures Topics[k].id in NoFollowUps <==> k != 7
    ensures Topics[k].id in PriceReplies <==> k < 4
    ensures Topics[k].id in TimeReplies <==> k == 0 || k == 1 || k == 3 || k == 5 || k == 6
    ensures Topics[k].id in LocationReplies <==> k == 1 || k == 2 || k == 4 || k == 6
    ensures Topics[k].id in RecommendReplies <==> k == 0 || k == 2 || k == 3
  {
  }
}
