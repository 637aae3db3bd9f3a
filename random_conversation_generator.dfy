// The random practice dialogue (domain/conversation/RandomConversationGenerator.kt):
// one of ten scenario templates, a negative conversation id, and one line per
// sentence pool with a variant chosen from that pool. The three random draws of
// `generate` (the template, `Random.nextLong(1, 100000)` and each `pool.random()`)
// are parameters.
module RandomConversation {

  datatype DialoguePair = DialoguePair(english: string, chinese: string, tip: string)

  /** A scenario: its titles and, per line of the dialogue, a pool of variants. */
  datatype ScenarioTemplate = ScenarioTemplate(title: string, titleZh: string, lines: seq<seq<DialoguePair>>)

  /** The `conversations` row (data/local/entity/Conversation.kt). */
  datatype Conversation = Conversation(conversationId: int, title: string, titleZh: string, scenarioTag: string)

  /** The `conversation_lines` row (data/local/entity/ConversationLine.kt). */
  datatype ConversationLine = ConversationLine(
    lineId: int,
    conversationId: int,
    speaker: string,
    englishText: string,
    chineseText: string,
    pronunciationTip: string,
    orderIndex: int)

  datatype GeneratedConversation = GeneratedConversation(conversation: Conversation, lines: seq<ConversationLine>)

  /** The ten templates with their titles; each of the eight pools is cut down
    * to its first variant. */
  const Scenarios: seq<ScenarioTemplate> := [
    ScenarioTemplate("Ordering Food", "點餐", [
      [DialoguePair("Hi, could I get a table for two?",
        "嗨，可以給我一張兩人桌嗎？", "'table for two' 是常用搭配")],
      [DialoguePair("Of course! Right this way. Here's the menu.",
        "當然！這邊請。這是菜單。", "'right this way' 是服務業常用語")],
      [DialoguePair("What do you recommend?",
        "你推薦什麼？", "'recommend' 重音在第三音節 /ˌrɛkəˈmɛnd/")],
      [DialoguePair("Our pasta is very popular! The steak is also great.",
        "我們的義大利麵很受歡迎！牛排也很棒。", "'pasta' 注意 /ˈpɑːstə/ 的發音")],
      [DialoguePair("I'll have the pasta, please. And a glass of water.",
        "我要義大利麵，謝謝。再來一杯水。", "'a glass of' 是量詞搭配")],
      [DialoguePair("Excellent choice! I'll put that order in right away.",
        "很好的選擇！我馬上幫您下單。", "'right away' 表示立刻")],
      [DialoguePair("This is delicious! Can I get the bill, please?",
        "太好吃了！可以買單嗎？", "'delicious' 重音在第二音節 /dɪˈlɪʃəs/")],
      [DialoguePair("Here you go! Thank you for dining with us.",
        "給您！感謝您來用餐。", "'dining' 是 'dine' 的動名詞")]]),
    ScenarioTemplate("Shopping", "購物", [
      [DialoguePair("Hi, I'm looking for a birthday gift. Can you help me?",
        "嗨，我在找生日禮物。可以幫我嗎？", "'looking for' 表示尋找")],
      [DialoguePair("Of course! What kind of gift are you thinking of?",
        "當然！你在想什麼樣的禮物呢？", "'thinking of' 後接名詞或動名詞")],
      [DialoguePair("Maybe something practical? Like a scarf or a wallet.",
        "也許實用的東西？像是圍巾或錢包。", "'practical' 重音在第一音節 /ˈpræktɪkəl/")],
      [DialoguePair("This leather wallet is very popular. It's forty dollars.",
        "這個皮革錢包很受歡迎。四十美元。", "'leather' 注意 /ˈlɛðər/ 的 th 發音")],
      [DialoguePair("That looks nice! Can I see it up close?",
        "看起來不錯！可以近看嗎？", "'up close' 表示近距離")],
      [DialoguePair("Absolutely! Would you like me to wrap it?",
        "當然！需要幫你包裝嗎？", "'wrap' 注意 /ræp/ 的 w 不影響發音")],
      [DialoguePair("Yes, please! I'll pay by card.",
        "好的，謝謝！我用卡付。", "'pay by card' 是付款方式表達")],
      [DialoguePair("Here's your receipt. Thank you for shopping with us!",
        "這是您的收據。感謝您來購物！", "'shopping with us' 是服務業結尾用語")]]),
    ScenarioTemplate("At the Doctor", "看醫生", [
      [DialoguePair("Good morning, doctor. I haven't been feeling well lately.",
        "早安，醫生。我最近身體不太舒服。", "'haven't been feeling' 是現在完成進行式")],
      [DialoguePair("I see. Can you tell me more about your symptoms?",
        "了解。你可以多描述一下症狀嗎？", "'symptoms' 重音在第一音節 /ˈsɪmptəmz/")],
      [DialoguePair("I've had a sore throat, headache, and I feel very tired.",
        "我喉嚨痛、頭痛，而且覺得很累。", "'sore throat' 重音在 'sore'")],
      [DialoguePair("Let me check your temperature and blood pressure.",
        "讓我量一下你的體溫和血壓。", "'temperature' 重音在第一音節 /ˈtɛmprɪtʃər/")],
      [DialoguePair("Is it anything serious?",
        "嚴重嗎？", "'serious' 重音在第一音節 /ˈsɪriəs/")],
      [DialoguePair("It looks like you have the flu. Nothing too serious.",
        "看起來你得了流感，不算太嚴重。", "'flu' 注意 /fluː/ 的長母音")],
      [DialoguePair("What medicine should I take? And how often?",
        "我應該吃什麼藥？多久吃一次？", "'how often' 問頻率")],
      [DialoguePair("Take this medicine twice a day after meals. Drink lots of water and get plenty of rest.",
        "飯後一天吃兩次這個藥。多喝水，多休息。", "'twice a day' 表示一天兩次")]]),
    ScenarioTemplate("Hotel Check-In", "飯店入住", [
      [DialoguePair("Good evening! I have a reservation under the name Chen.",
        "晚安！我有預訂，名字是陳。", "'under the name' 是預訂的固定表達")],
      [DialoguePair("Welcome! Let me pull up your reservation. May I see your ID?",
        "歡迎！讓我調出您的預訂資料。可以看一下證件嗎？", "'pull up' 表示調出、查詢")],
      [DialoguePair("Here you go. I'm staying for three nights.",
        "給你。我要住三晚。", "'three nights' 注意 /θriː naɪts/")],
      [DialoguePair("Perfect! You're in room 608 on the sixth floor. Here's your key card.",
        "好的！您在六樓 608 號房。這是您的房卡。", "'key card' 是常見搭配")],
      [DialoguePair("Great, thank you! What time is check-out?",
        "太好了，謝謝！退房時間是幾點？", "'check-out' 重音在 'check'")],
      [DialoguePair("Check-out is at noon. The elevators are to your left.",
        "退房時間是中午。電梯在你左邊。", "'elevators' 重音在第一音節 /ˈɛlɪveɪtərz/")],
      [DialoguePair("Is there a gym or pool in the hotel?",
        "飯店有健身房或游泳池嗎？", "'gym' 注意 /dʒɪm/ 的發音")],
      [DialoguePair("Yes! The pool is on the rooftop, open until 9 PM. Enjoy your stay!",
        "有！泳池在頂樓，開放到晚上九點。祝您住宿愉快！", "'rooftop' 是複合詞重音在 'roof'")]]),
    ScenarioTemplate("Asking for Directions", "問路", [
      [DialoguePair("Excuse me, could you tell me how to get to the train station?",
        "不好意思，可以告訴我怎麼去火車站嗎？", "'could you tell me' 是禮貌問路方式")],
      [DialoguePair("Sure! Go straight along this road for about two blocks.",
        "當然！沿著這條路直走大約兩個街區。", "'go straight' 表示直走")],
      [DialoguePair("And then? Do I turn at the traffic light?",
        "然後呢？在紅綠燈那裡轉嗎？", "'traffic light' 重音在 'traffic'")],
      [DialoguePair("Yes! Turn right at the big intersection. You'll see it on your left.",
        "對！在大路口右轉。你會在左邊看到它。", "'intersection' 重音在第三音節")],
      [DialoguePair("How long does it take to walk there?",
        "走路過去要多久？", "'how long does it take' 是問時間的常用句")],
      [DialoguePair("About ten minutes on foot. It's a nice walk!",
        "走路大約十分鐘。沿路風景很好！", "'on foot' 是固定搭配表示步行")],
      [DialoguePair("Perfect! Thank you so much for your help!",
        "太好了！非常感謝你的幫忙！", "'thank you so much' 表達強烈感謝")],
      [DialoguePair("You're welcome! Enjoy your visit.",
        "不客氣！祝你參觀愉快。", "'enjoy' 重音在第二音節 /ɪnˈdʒɔɪ/")]]),
    ScenarioTemplate("At the Coffee Shop", "在咖啡廳", [
      [DialoguePair("Hi! What can I get for you today?",
        "嗨！今天想喝什麼？", "'what can I get for you' 是點餐常用問句")],
      [DialoguePair("I'd like a large iced latte, please.",
        "我要一杯大杯冰拿鐵，謝謝。", "'iced latte' 重音在 'iced'")],
      [DialoguePair("Would you like regular milk or oat milk?",
        "你要一般牛奶還是燕麥奶？", "'regular' 重音在第一音節 /ˈrɛɡjʊlər/")],
      [DialoguePair("Oat milk, please. And can I get less ice?",
        "燕麥奶，謝謝。可以少冰嗎？", "'less ice' 表示少冰")],
      [DialoguePair("Of course! Your total is six fifty.",
        "當然！總共六塊五。", "'total' 重音在第一音節 /ˈtoʊtəl/")],
      [DialoguePair("Card, please. Do you have any loyalty rewards?",
        "刷卡，謝謝。你們有集點嗎？", "'loyalty rewards' 是會員獎勵方案")],
      [DialoguePair("Your latte is ready! Enjoy.",
        "你的拿鐵好了！請享用。", "'enjoy' 重音在第二音節 /ɪnˈdʒɔɪ/")],
      [DialoguePair("Thank you! This place is really cozy. I'll definitely come back.",
        "謝謝！這個地方好溫馨。我一定會再來。", "'cozy' 注意 /ˈkoʊzi/ 的長母音")]]),
    ScenarioTemplate("Taking a Taxi", "搭計程車", [
      [DialoguePair("Hi! Could you take me to the airport, please?",
        "嗨！可以載我去機場嗎？", "'take me to' 連讀")],
      [DialoguePair("Sure, hop in! Do you have a preferred route?",
        "好，上車！你有偏好的路線嗎？", "'hop in' 是口語表示上車")],
      [DialoguePair("Please take the fastest route. I'm running late.",
        "請走最快的路。我快遲到了。", "'running late' 表示快要遲到")],
      [DialoguePair("Got it! I'll take the expressway. It should be faster right now.",
        "了解！我走快速道路。現在應該比較快。", "'expressway' 重音在第二音節")],
      [DialoguePair("Actually, can we make a quick stop at the convenience store?",
        "其實，可以在便利商店快速停一下嗎？", "'make a stop' 表示停留一下")],
      [DialoguePair("No problem! It'll just be a minute.",
        "沒問題！只要一分鐘就好。", "'just a minute' 是常用表達")],
      [DialoguePair("We're here! That'll be eighteen fifty.",
        "到了！十八塊五。", "'we're here' 表示我們到了")],
      [DialoguePair("Here you go. Keep the change! Thank you.",
        "給你。不用找了！謝謝。", "'keep the change' 表示不用找零")]]),
    ScenarioTemplate("Making Friends", "交朋友", [
      [DialoguePair("Hi there! I don't think we've met. I'm Alex.",
        "嗨！我想我們沒見過。我是 Alex。", "'I don't think we've met' 是自我介紹開場白")],
      [DialoguePair("Nice to meet you, Alex! I'm Jamie. Are you new here?",
        "很高興認識你，Alex！我是 Jamie。你是新來的嗎？", "'nice to meet you' 是見面固定用語")],
      [DialoguePair("Yeah, I just moved here from Taipei. Still getting used to things.",
        "對，我剛從台北搬來。還在適應中。", "'getting used to' 表示逐漸適應")],
      [DialoguePair("I'm studying computer science. How about you?",
        "我讀資工。你呢？", "'computer science' 是常見科系名")],
      [DialoguePair("Nice! Do you like it so far? What do you do for fun?",
        "不錯！到目前為止喜歡嗎？你平常做什麼消遣？", "'so far' 表示到目前為止")],
      [DialoguePair("I'm really into hiking and photography! We should hang out sometime.",
        "我很迷健行和攝影！我們應該找時間出去玩。", "'hang out' 表示一起消磨時間")],
      [DialoguePair("Definitely! Let's exchange numbers. I'll text you!",
        "一定！我們交換號碼吧。我傳訊息給你！", "'exchange numbers' 表示交換電話號碼")],
      [DialoguePair("Awesome! It was really nice meeting you. See you around!",
        "太棒了！真的很高興認識你。到時見！", "'see you around' 表示改天見")]]),
    ScenarioTemplate("At the Supermarket", "在超市", [
      [DialoguePair("Excuse me, where can I find the cooking oil?",
        "不好意思，食用油在哪裡？", "'cooking oil' 是常見搭配")],
      [DialoguePair("It's in aisle four, next to the vinegar.",
        "在第四走道，醋的旁邊。", "'aisle' 注意 s 不發音 /aɪl/")],
      [DialoguePair("Thanks! Also, are there any deals on fruits today?",
        "謝謝！另外，今天水果有特價嗎？", "'deals' 表示特價優惠")],
      [DialoguePair("Strawberries are buy one get one free! They're very fresh.",
        "草莓買一送一！非常新鮮。", "'buy one get one free' 是常見促銷方式")],
      [DialoguePair("I'll take two boxes of strawberries then! Where do I pay?",
        "那我要兩盒草莓！哪裡結帳？", "'two boxes of' 是量詞搭配")],
      [DialoguePair("The checkout is at the front. You can also use self-checkout on the right.",
        "結帳在前面。你也可以用右邊的自助結帳。", "'on the right' 表示在右邊")],
      [DialoguePair("Great, thanks for all your help!",
        "太好了，謝謝你的幫忙！", "'thanks for all your help' 是表達感謝的完整句")],
      [DialoguePair("You're welcome! Come again anytime.",
        "不客氣！歡迎隨時再來。", "'come again' 表示歡迎再來")]]),
    ScenarioTemplate("At the Gym", "在健身房", [
      [DialoguePair("Hey! Is this your first time at this gym?",
        "嘿！你是第一次來這家健身房嗎？", "'first time' 是常見搭配")],
      [DialoguePair("Yeah, I just signed up yesterday! Still figuring things out.",
        "對，我昨天剛報名！還在搞清楚狀況。", "'figuring out' 表示搞清楚")],
      [DialoguePair("Nice! What's your workout routine like?",
        "不錯！你的健身計畫是什麼？", "'workout routine' 是健身常用搭配")],
      [DialoguePair("I usually do cardio first, then some weight training.",
        "我通常先做有氧，然後再做重訓。", "'cardio' 是 cardiovascular 的縮寫 /ˈkɑːrdioʊ/")],
      [DialoguePair("That sounds like a good plan! I'm trying to build muscle.",
        "聽起來是個好計畫！我想增肌。", "'build muscle' 表示增肌")],
      [DialoguePair("You should try the bench press! Start with lighter weights.",
        "你應該試臥推！先從輕的重量開始。", "'bench press' 是重訓動作 /bɛntʃ prɛs/")],
      [DialoguePair("Thanks for the tips! I really appreciate it.",
        "謝謝你的建議！我真的很感激。", "'appreciate' 重音在第二音節 /əˈpriːʃieɪt/")],
      [DialoguePair("Anytime! Good luck with your training. See you around!",
        "隨時！祝你訓練順利。到時見！", "'good luck with' 表示祝...順利")]])
  ]

  /** Every pool offers at least one variant to pick from. */
  predicate Pickable(t: ScenarioTemplate) {
    forall k :: 0 <= k < |t.lines| ==> t.lines[k] != []
  }

  /** Ten templates of eight non-empty pools each. */
  lemma ScenariosShape()
    ensures |Scenarios| == 10
    ensures forall i :: 0 <= i < |Scenarios| ==> |Scenarios[i].lines| == 8 && Pickable(Scenarios[i])
  {
  }

  function Speaker(index: nat): string {
    if index % 2 == 0 then "A" else "B"
  }

  /** The body of the `mapIndexed` over the pools: the line built from pool
    * `index` and its chosen variant. */
  function Line(conversationId: int, index: nat, chosen: DialoguePair): ConversationLine {
    ConversationLine(conversationId * 100 - index, conversationId, Speaker(index),
      chosen.english, chosen.chinese, chosen.tip, index + 1)
  }

  /** The conversation `generate` builds from template `t`, the id and one
    * pick per pool (`pool.random()` is `pool[pick % |pool|]`). */
  function Assemble(t: ScenarioTemplate, conversationId: int, picks: seq<nat>): (r: GeneratedConversation)
    requires Pickable(t) && |picks| == |t.lines|
    ensures r.conversation == Conversation(conversationId, t.title, t.titleZh, "random")
    ensures |r.lines| == |t.lines|
    ensures forall k :: 0 <= k < |r.lines| ==>
      r.lines[k].conversationId == conversationId &&
      r.lines[k].orderIndex == k + 1 &&
      r.lines[k].lineId == conversationId * 100 - k &&
      r.lines[k].speaker == (if k % 2 == 0 then "A" else "B") &&
      DialoguePair(r.lines[k].englishText, r.lines[k].chineseText, r.lines[k].pronunciationTip) in t.lines[k]
  {
    var lines := seq(|t.lines|, k requires 0 <= k < |t.lines| => Line(conversationId, k, t.lines[k][picks[k] % |t.lines[k]|]));
    GeneratedConversation(Conversation(conversationId, t.title, t.titleZh, "random"), lines)
  }

  /** `generate()`: template number `choice % 10`, conversation id `-draw`
    * for the draw of `Random.nextLong(1, 100000)`, and one pick per pool. */
  function Generate(choice: nat, draw: int, picks: seq<nat>): (r: GeneratedConversation)
    requires 1 <= draw < 100000
    requires |picks| == 8
    ensures -99999 <= r.conversation.conversationId <= -1
    ensures r.conversation.title == Scenarios[choice % |Scenarios|].title
    ensures r.conversation.titleZh == Scenarios[choice % |Scenarios|].titleZh
    ensures r.conversation.scenarioTag == "random"
    ensures |r.lines| == 8
    ensures forall k :: 0 <= k < |r.lines| ==>
      r.lines[k].conversationId == r.conversation.conversationId &&
      DialoguePair(r.lines[k].englishText, r.lines[k].chineseText, r.lines[k].pronunciationTip)
        in Scenarios[choice % |Scenarios|].lines[k]
  {
    ScenariosShape();
    Assemble(Scenarios[choice % |Scenarios|], -draw, picks)
  }

  /** Order indices run 1, 2, .., n and speakers alternate, starting with A. */
  lemma OrderAndSpeakers(t: ScenarioTemplate, conversationId: int, picks: seq<nat>)
    requires Pickable(t) && |picks| == |t.lines|
    ensures var r := Assemble(t, conversationId, picks);
      (forall k :: 0 <= k < |r.lines| ==> r.lines[k].orderIndex == k + 1) &&
      (forall k :: 0 <= k && k + 1 < |r.lines| ==> r.lines[k + 1].orderIndex == r.lines[k].orderIndex + 1) &&
      (forall k :: 0 <= k && k + 1 < |r.lines| ==> r.lines[k].speaker != r.lines[k + 1].speaker) &&
      (|r.lines| > 0 ==> r.lines[0].speaker == "A")
  {
  }

  /** With a negative conversation id, every line id is negative and no two
    * lines share one. */
  lemma LineIdsNegativeAndDistinct(t: ScenarioTemplate, conversationId: int, picks: seq<nat>)
    requires Pickable(t) && |picks| == |t.lines|
    requires conversationId <= -1
    ensures var r := Assemble(t, conversationId, picks);
      (forall k :: 0 <= k < |r.lines| ==> r.lines[k].lineId < 0) &&
      (forall i, j :: 0 <= i < j < |r.lines| ==> r.lines[i].lineId != r.lines[j].lineId)
  {
  }

  /** A line id names its conversation and its position: for fewer than 100
    * pools, `-lineId` is `-conversationId` hundreds plus the index. */
  lemma LineIdDecodes(conversationId: int, index: nat)
    requires conversationId <= -1 && index < 100
    ensures (-(conversationId * 100 - index)) / 100 == -conversationId
    ensures (-(conversationId * 100 - index)) % 100 == index
  {
    assert -(conversationId * 100 - index) == (-conversationId) * 100 + index;
  }

  /** Hence lines of two different generated conversations never share an id. */
  lemma LineIdsNeverCollide(id1: int, k1: nat, id2: int, k2: nat)
    requires id1 <= -1 && id2 <= -1 && k1 < 100 && k2 < 100
    requires id1 * 100 - k1 == id2 * 100 - k2
    ensures id1 == id2 && k1 == k2
  {
    LineIdDecodes(id1, k1);
    LineIdDecodes(id2, k2);
  }
}
