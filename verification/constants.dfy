/** The fixed menu and the transcript's opening message. */
module Constants {
  import opened Wrappers
  import opened Types

  /** No two entries share an id. */
  predicate DistinctIds(menu: seq<MenuItem>) {
    forall i, j :: 0 <= i < j < |menu| ==> menu[i].id != menu[j].id
  }

  /** The menu, prices in cents. */
  function MenuItems(): (menu: seq<MenuItem>)
    ensures |menu| == 5
    ensures DistinctIds(menu)
    ensures forall i :: 0 <= i < |menu| ==> menu[i].price > 0
    ensures menu[0].id == "coffee-001" && menu[0].name == "Espresso" && menu[0].price == 350
    ensures menu[1].id == "coffee-002" && menu[1].name == "Cappuccino" && menu[1].price == 450
    ensures menu[2].id == "pastry-001" && menu[2].name == "Croissant" && menu[2].price == 300
    ensures menu[3].id == "sandwich-001" && menu[3].name == "Chicken Club" && menu[3].price == 850
    ensures menu[4].id == "salad-001" && menu[4].name == "Caesar Salad" && menu[4].price == 700
  {
    [ MenuItem("coffee-001", "Espresso", 350, "https://picsum.photos/id/225/200/200",
               "A rich and aromatic shot of pure coffee."),
      MenuItem("coffee-002", "Cappuccino", 450, "https://picsum.photos/id/30/200/200",
               "Espresso with steamed milk and a deep layer of foam."),
      MenuItem("pastry-001", "Croissant", 300, "https://picsum.photos/id/368/200/200",
               "Buttery, flaky, and freshly baked."),
      MenuItem("sandwich-001", "Chicken Club", 850, "https://picsum.photos/id/1015/200/200",
               "Grilled chicken, bacon, lettuce, tomato on toasted bread."),
      MenuItem("salad-001", "Caesar Salad", 700, "https://picsum.photos/id/25/200/200",
               "Crisp romaine lettuce with Caesar dressing and croutons.") ]
  }

  /** `menu.find(mi => mi.id === id)`: the first entry with that id. */
  function Find(menu: seq<MenuItem>, id: string): (r: Option<MenuItem>)
    ensures r.None? <==> forall i :: 0 <= i < |menu| ==> menu[i].id != id
    ensures r.Some? ==> r.value in menu && r.value.id == id
    ensures forall i :: 0 <= i < |menu| && menu[i].id == id ==>
      (forall j :: 0 <= j < i ==> menu[j].id != id) ==> r == Some(menu[i])
    decreases |menu|
  {
    if |menu| == 0 then None
    else if menu[0].id == id then Some(menu[0])
    else Find(menu[1..], id)
  }

  /** With distinct ids, looking an entry's id up finds that entry. */
  lemma FindDistinct(menu: seq<MenuItem>, i: nat)
    requires DistinctIds(menu)
    requires i < |menu|
    ensures Find(menu, menu[i].id) == Some(menu[i])
  {
  }

  const WelcomeText := "Welcome to Stanley's Cafe! I can help you with our menu and take your order. What would you like today?"

  /** The message the transcript starts with; its time is read when the app
      loads. */
  function InitialBotMessage(localTime: string): (m: Message)
    ensures m.id == 1 && m.sender == FromBot && m.text == WelcomeText
    ensures m.timestamp == localTime
  {
    Message(1, WelcomeText, FromBot, localTime)
  }
}
