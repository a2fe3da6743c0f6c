/** Seed data: the category list, the default restaurant profile and the
    default catalog that a fresh store is filled with. */
module Constants {
  import opened Types

  /** The same four values the `Category` datatype lists, in the order the
      tabs and the dish form's select show them. */
  const CATEGORIES: seq<Category> := [Entradas, PratosPrincipais, Bebidas, Sobremesas]

  const INITIAL_RESTAURANT_INFO: RestaurantInfo := RestaurantInfo(
    "Sabor de Angola",
    None,
    None,
    "+244 923 456 789",
    "Talatona, Luanda",
    Some("Sabor_Cliente"),
    Some("bomapetite2024"))

  const INITIAL_MENU: seq<MenuItem> := [
    MenuItem("1", "Mufete Tradicional",
      "Peixe carapau grelhado na brasa, acompanhado de feijão de óleo de palma, mandioca, batata doce e banana pão.",
      8500, PratosPrincipais, Some("https://picsum.photos/id/431/600/400"), true, Some(25), None, None, None),
    MenuItem("2", "Calulu de Peixe",
      "Tradicional calulu com peixe seco e fresco, quiabos e folhas de batata doce. Acompanha funge.",
      9000, PratosPrincipais, Some("https://picsum.photos/id/292/600/400"), true, Some(30), None, None, None),
    MenuItem("3", "Kizaca",
      "Folhas de mandioca pisadas, cozinhadas com amendoim e óleo de palma.",
      4500, Entradas, Some("https://picsum.photos/id/1080/600/400"), true, None, Some(true), None, None),
    MenuItem("4", "Sumo de Múcua",
      "Sumo natural feito da fruta do imbondeiro. Rico em vitamina C.",
      1500, Bebidas, Some("https://picsum.photos/id/430/600/400"), true, None, None, None, None),
    MenuItem("5", "Mousse de Maracujá",
      "Sobremesa cremosa e refrescante feita com polpa de maracujá fresco.",
      2500, Sobremesas, Some("https://picsum.photos/id/1060/600/400"), true, None, None, None, None),
    MenuItem("6", "Cuca Preta",
      "Cerveja nacional bem gelada.",
      1000, Bebidas, Some("https://picsum.photos/id/766/600/400"), true, None, None, None, None)
  ]

  /** The seed catalog's ids are pairwise distinct. */
  lemma InitialMenuIdsDistinct()
    ensures forall i, j :: 0 <= i < j < |INITIAL_MENU| ==> INITIAL_MENU[i].id != INITIAL_MENU[j].id
  {
  }
}
