// The scenario of the day (domain/scenario/DailyScenarioGenerator.kt): one of
// twenty fixed scenarios, chosen by `Random(epochDay).nextInt(20)`. The seeded
// draw is given as a function of the epoch day.
module DailyScenario {

  /** A practice sentence (domain/scenario/GeneratedScenario.kt); this model
    * keeps its English text only. */
  datatype GeneratedSentence = GeneratedSentence(englishText: string)

  datatype GeneratedScenario = GeneratedScenario(title: string, titleZh: string, category: string,
    sentences: seq<GeneratedSentence>)

  /** `getAllScenarios()`, in source order. */
  const AllScenarios: seq<GeneratedScenario> := [
    GeneratedScenario("At the Bakery", "在麵包店", "daily", [
      GeneratedSentence("I'd like two croissants, please."),
      GeneratedSentence("Do you have any whole wheat bread?"),
      GeneratedSentence("How much is the chocolate cake?"),
      GeneratedSentence("Is this baked fresh today?"),
      GeneratedSentence("Can I get a dozen donuts?"),
      GeneratedSentence("What's your most popular item?"),
      GeneratedSentence("I'm looking for a birthday cake."),
      GeneratedSentence("Does this contain any nuts?"),
      GeneratedSentence("Can you write a message on the cake?"),
      GeneratedSentence("I'll take one of each, please.")]),
    GeneratedScenario("At the Pet Store", "在寵物店", "daily", [
      GeneratedSentence("I'm looking for food for my cat."),
      GeneratedSentence("How often should I feed my puppy?"),
      GeneratedSentence("Do you sell fish tanks?"),
      GeneratedSentence("My dog needs a new leash."),
      GeneratedSentence("Which brand of pet food do you recommend?"),
      GeneratedSentence("Can I bring my dog inside the store?"),
      GeneratedSentence("I need some flea medicine for my cat."),
      GeneratedSentence("How big will this breed get?"),
      GeneratedSentence("Do you offer grooming services?"),
      GeneratedSentence("She's a rescue dog from the shelter.")]),
    GeneratedScenario("At the Laundromat", "在自助洗衣店", "daily", [
      GeneratedSentence("Excuse me, how do I use this machine?"),
      GeneratedSentence("Do you have change for a ten?"),
      GeneratedSentence("How long does a wash cycle take?"),
      GeneratedSentence("Is this dryer available?"),
      GeneratedSentence("I need some detergent."),
      GeneratedSentence("Can I leave my clothes here while they dry?"),
      GeneratedSentence("This machine ate my quarters!"),
      GeneratedSentence("Where can I fold my laundry?"),
      GeneratedSentence("Do you have a lost and found?"),
      GeneratedSentence("What temperature should I use for colors?")]),
    GeneratedScenario("At the Car Repair Shop", "在汽車修理廠", "daily", [
      GeneratedSentence("My car is making a strange noise."),
      GeneratedSentence("How long will the repair take?"),
      GeneratedSentence("Can you give me an estimate?"),
      GeneratedSentence("I need an oil change."),
      GeneratedSentence("The check engine light is on."),
      GeneratedSentence("Is it covered by warranty?"),
      GeneratedSentence("My brakes feel a little soft."),
      GeneratedSentence("Do you have any loaner cars?"),
      GeneratedSentence("When can I pick up my car?"),
      GeneratedSentence("The air conditioning isn't working.")]),
    GeneratedScenario("At the Dentist", "在牙醫", "daily", [
      GeneratedSentence("I have a toothache."),
      GeneratedSentence("When was your last dental checkup?"),
      GeneratedSentence("I need to schedule a cleaning."),
      GeneratedSentence("Does this procedure hurt?"),
      GeneratedSentence("I'm allergic to certain anesthetics."),
      GeneratedSentence("How many cavities do I have?"),
      GeneratedSentence("Will I need a crown?"),
      GeneratedSentence("My gums have been bleeding."),
      GeneratedSentence("Can you recommend a good toothbrush?"),
      GeneratedSentence("I'd like to whiten my teeth.")]),
    GeneratedScenario("At the Farmer's Market", "在農夫市集", "daily", [
      GeneratedSentence("Are these strawberries organic?"),
      GeneratedSentence("How much for a pound of tomatoes?"),
      GeneratedSentence("These peaches look really fresh."),
      GeneratedSentence("Do you grow these yourself?"),
      GeneratedSentence("Can I try a sample?"),
      GeneratedSentence("I'll take a basket of blueberries."),
      GeneratedSentence("When is the market open?"),
      GeneratedSentence("Do you accept credit cards?"),
      GeneratedSentence("This honey is locally produced."),
      GeneratedSentence("I'd like some fresh herbs.")]),
    GeneratedScenario("At the Bookstore", "在書店", "daily", [
      GeneratedSentence("I'm looking for the latest bestseller."),
      GeneratedSentence("Do you have this book in paperback?"),
      GeneratedSentence("Can you order this book for me?"),
      GeneratedSentence("Where is the children's section?"),
      GeneratedSentence("I'm interested in science fiction."),
      GeneratedSentence("Do you have a reading recommendation?"),
      GeneratedSentence("Is there a café inside the bookstore?"),
      GeneratedSentence("I'd like to browse for a while."),
      GeneratedSentence("Can I return this if I don't like it?"),
      GeneratedSentence("Do you have a loyalty program?")]),
    GeneratedScenario("Moving to a New Apartment", "搬新家", "daily", [
      GeneratedSentence("When can I move in?"),
      GeneratedSentence("Is the deposit refundable?"),
      GeneratedSentence("Does the rent include utilities?"),
      GeneratedSentence("I need to set up the internet."),
      GeneratedSentence("Where should I put the sofa?"),
      GeneratedSentence("Can you help me carry these boxes?"),
      GeneratedSentence("The elevator is too small for this table."),
      GeneratedSentence("I need to change my address."),
      GeneratedSentence("Do we need to sign a lease?"),
      GeneratedSentence("The neighbors seem really friendly.")]),
    GeneratedScenario("At the Dry Cleaner", "在乾洗店", "daily", [
      GeneratedSentence("I need this suit dry cleaned."),
      GeneratedSentence("Can you remove this stain?"),
      GeneratedSentence("When will it be ready?"),
      GeneratedSentence("I need this by tomorrow morning."),
      GeneratedSentence("Can you press these pants?"),
      GeneratedSentence("Do you do alterations?"),
      GeneratedSentence("This button is loose."),
      GeneratedSentence("How much for a dress shirt?"),
      GeneratedSentence("I'd like starch on the collar."),
      GeneratedSentence("Here's my receipt from last time.")]),
    GeneratedScenario("At the Eye Doctor", "在眼科", "daily", [
      GeneratedSentence("I need to get my eyes checked."),
      GeneratedSentence("My vision has been getting blurry."),
      GeneratedSentence("I'd like to try contact lenses."),
      GeneratedSentence("Can you read the bottom line?"),
      GeneratedSentence("Do I need a stronger prescription?"),
      GeneratedSentence("How often should I replace my contacts?"),
      GeneratedSentence("These frames look great on you."),
      GeneratedSentence("I've been getting frequent headaches."),
      GeneratedSentence("Are there any blue-light blocking glasses?"),
      GeneratedSentence("My insurance covers one pair a year.")]),
    GeneratedScenario("At the Playground", "在遊樂場", "daily", [
      GeneratedSentence("Be careful on the slide!"),
      GeneratedSentence("Do you want to go on the swings?"),
      GeneratedSentence("Let's take turns on the seesaw."),
      GeneratedSentence("Hold on tight!"),
      GeneratedSentence("Can you push me higher?"),
      GeneratedSentence("It's your turn now."),
      GeneratedSentence("Don't run near the sandbox."),
      GeneratedSentence("Let's play hide and seek!"),
      GeneratedSentence("Are you having fun?"),
      GeneratedSentence("Time to go home, sweetie.")]),
    GeneratedScenario("At the Electronics Store", "在電子用品店", "daily", [
      GeneratedSentence("I'm looking for a new laptop."),
      GeneratedSentence("What's the battery life on this one?"),
      GeneratedSentence("Does it come with a warranty?"),
      GeneratedSentence("How much storage does it have?"),
      GeneratedSentence("Can I see it in a different color?"),
      GeneratedSentence("Is this compatible with my phone?"),
      GeneratedSentence("I'd like to trade in my old phone."),
      GeneratedSentence("Do you offer a student discount?"),
      GeneratedSentence("Can you help me set this up?"),
      GeneratedSentence("I'll also need a screen protector.")]),
    GeneratedScenario("Ordering Food Delivery", "叫外送", "daily", [
      GeneratedSentence("I'd like to place an order for delivery."),
      GeneratedSentence("How long will the delivery take?"),
      GeneratedSentence("Is there a minimum order amount?"),
      GeneratedSentence("Can I add extra sauce on the side?"),
      GeneratedSentence("What's the delivery fee?"),
      GeneratedSentence("I'll pay with my credit card."),
      GeneratedSentence("Please don't ring the doorbell."),
      GeneratedSentence("The driver can't find my address."),
      GeneratedSentence("My order is missing an item."),
      GeneratedSentence("Can I leave a tip through the app?")]),
    GeneratedScenario("At the Swimming Pool", "在游泳池", "daily", [
      GeneratedSentence("Is the pool heated?"),
      GeneratedSentence("Do I need to wear a swim cap?"),
      GeneratedSentence("What are the pool hours?"),
      GeneratedSentence("No diving in the shallow end."),
      GeneratedSentence("Can I rent a towel?"),
      GeneratedSentence("The water is really refreshing today."),
      GeneratedSentence("Which lane is for lap swimming?"),
      GeneratedSentence("I'm just going to sit by the pool."),
      GeneratedSentence("Please shower before entering the pool."),
      GeneratedSentence("My kids are taking swimming lessons.")]),
    GeneratedScenario("At the Furniture Store", "在家具店", "daily", [
      GeneratedSentence("I'm looking for a dining table."),
      GeneratedSentence("Can I try sitting on this couch?"),
      GeneratedSentence("Does this come in a different color?"),
      GeneratedSentence("How long is the delivery time?"),
      GeneratedSentence("Do you offer assembly service?"),
      GeneratedSentence("This bookshelf is perfect for my room."),
      GeneratedSentence("What material is this made of?"),
      GeneratedSentence("Is there a showroom I can visit?"),
      GeneratedSentence("Can I return it if it doesn't fit?"),
      GeneratedSentence("I'd like to finance this purchase.")]),
    GeneratedScenario("At the Music Store", "在樂器行", "daily", [
      GeneratedSentence("I'd like to try this guitar."),
      GeneratedSentence("Do you give piano lessons?"),
      GeneratedSentence("I'm a beginner. What do you recommend?"),
      GeneratedSentence("How much is this set of drums?"),
      GeneratedSentence("Can I hear how this sounds?"),
      GeneratedSentence("I need new strings for my violin."),
      GeneratedSentence("Do you sell sheet music?"),
      GeneratedSentence("Is this instrument good for kids?"),
      GeneratedSentence("I'd like to rent a keyboard for a month."),
      GeneratedSentence("Can you tune my guitar?")]),
    GeneratedScenario("At Immigration Control", "在出入境管制", "travel", [
      GeneratedSentence("Here is my passport and boarding pass."),
      GeneratedSentence("I'm here for vacation."),
      GeneratedSentence("I'll be staying for two weeks."),
      GeneratedSentence("I'm staying at the Hilton Hotel."),
      GeneratedSentence("What's the purpose of your visit?"),
      GeneratedSentence("I have nothing to declare."),
      GeneratedSentence("Where do I pick up my luggage?"),
      GeneratedSentence("Is there a currency exchange nearby?"),
      GeneratedSentence("How do I get to the city center?"),
      GeneratedSentence("Can I get a transit visa?")]),
    GeneratedScenario("Visiting the Museum", "參觀博物館", "daily", [
      GeneratedSentence("How much is the admission fee?"),
      GeneratedSentence("Is photography allowed inside?"),
      GeneratedSentence("Where is the ancient Egypt exhibition?"),
      GeneratedSentence("Can I get an audio guide?"),
      GeneratedSentence("This painting is from the 18th century."),
      GeneratedSentence("The museum closes at six o'clock."),
      GeneratedSentence("Is there a gift shop?"),
      GeneratedSentence("I'd like a guided tour, please."),
      GeneratedSentence("Please don't touch the exhibits."),
      GeneratedSentence("This sculpture is absolutely stunning.")]),
    GeneratedScenario("At the Amusement Park", "在遊樂園", "daily", [
      GeneratedSentence("How long is the wait for this ride?"),
      GeneratedSentence("Is there a height requirement?"),
      GeneratedSentence("I want to ride the roller coaster!"),
      GeneratedSentence("Can we get a fast pass?"),
      GeneratedSentence("Where's the nearest restroom?"),
      GeneratedSentence("Let's get some cotton candy!"),
      GeneratedSentence("That was so much fun!"),
      GeneratedSentence("I'm too scared to go on that one."),
      GeneratedSentence("Should we watch the fireworks show?"),
      GeneratedSentence("The park closes at ten tonight.")]),
    GeneratedScenario("At the Yoga Class", "在瑜伽課", "daily", [
      GeneratedSentence("Is this class suitable for beginners?"),
      GeneratedSentence("Do I need to bring my own mat?"),
      GeneratedSentence("Take a deep breath and relax."),
      GeneratedSentence("I can't touch my toes yet."),
      GeneratedSentence("Hold this pose for thirty seconds."),
      GeneratedSentence("My muscles are really sore today."),
      GeneratedSentence("What time is the morning class?"),
      GeneratedSentence("I feel so relaxed after that session."),
      GeneratedSentence("Can you show me how to do this stretch?"),
      GeneratedSentence("Namaste. See you next week!")])
  ]

  /** `generateForDate(date)`: `nextInt(epochDay)` stands for the
    * `nextInt(all.size)` of the `Random` seeded with the epoch day, which lies
    * in [0, 20). */
  function GenerateForDate(epochDay: int, nextInt: int -> int): (r: GeneratedScenario)
    requires 0 <= nextInt(epochDay) < 20
    ensures r in AllScenarios
    ensures |r.sentences| == 10
  {
    ScenariosShape();
    AllScenarios[nextInt(epochDay)]
  }

  /** `generateForToday()`: the scenario of today's date. */
  function GenerateForToday(today: int, nextInt: int -> int): (r: GeneratedScenario)
    requires 0 <= nextInt(today) < 20
    ensures r == GenerateForDate(today, nextInt)
  {
    GenerateForDate(today, nextInt)
  }

  /** Twenty scenarios of ten sentences each. */
  lemma ScenariosShape()
    ensures |AllScenarios| == 20
    ensures forall i :: 0 <= i < |AllScenarios| ==> |AllScenarios[i].sentences| == 10
  {
  }
}
