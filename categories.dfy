/** The three static category catalogs of src/constants/categories.ts. The
    icon of each entry is a UI component reference and is not modelled. */
module Categories {

  datatype CategoryItem = CategoryItem(id: string, labelText: string)

  const ExpenseCategories: seq<CategoryItem> := [
    CategoryItem("shopping", "Compras"),
    CategoryItem("food", "Comida"),
    CategoryItem("phone", "Telefone"),
    CategoryItem("entertainment", "Entretenimento"),
    CategoryItem("education", "Educação"),
    CategoryItem("beauty", "Beleza"),
    CategoryItem("sports", "Esportes"),
    CategoryItem("social", "Social"),
    CategoryItem("transport", "Transporte"),
    CategoryItem("clothing", "Roupas"),
    CategoryItem("car", "Carro"),
    CategoryItem("drinks", "Bebidas"),
    CategoryItem("electronics", "Eletrônicos"),
    CategoryItem("travel", "Viagem"),
    CategoryItem("health", "Saúde"),
    CategoryItem("pets", "Pets"),
    CategoryItem("repairs", "Reparos"),
    CategoryItem("housing", "Moradia"),
    CategoryItem("home", "Lar"),
    CategoryItem("gifts", "Presentes"),
    CategoryItem("donations", "Doações"),
    CategoryItem("lottery", "Loteria"),
    CategoryItem("snacks", "Lanches"),
    CategoryItem("kids", "Filhos"),
    CategoryItem("vegetables", "Vegetais"),
    CategoryItem("fruits", "Frutas"),
    CategoryItem("custom", "Configurações")
  ]

  const IncomeCategories: seq<CategoryItem> := [
    CategoryItem("salary", "Salário"),
    CategoryItem("investments", "Investimentos"),
    CategoryItem("part_time", "Meio Período"),
    CategoryItem("awards", "Prêmios"),
    CategoryItem("others", "Outros")
  ]

  const TransferCategories: seq<CategoryItem> := [
    CategoryItem("transfer", "Transferência")
  ]

  /** The three catalogs in order: expense, income, transfer. */
  function AllCategories(): seq<CategoryItem> {
    ExpenseCategories + IncomeCategories + TransferCategories
  }

  lemma CatalogSizes()
    ensures |ExpenseCategories| == 27 && |IncomeCategories| == 5 && |TransferCategories| == 1
  {
  }

  /** The ids of the catalogs taken together, in order; `IdsMatch` ties
      them to the entries. */
  const CatalogIds: seq<string> := [
    "shopping", "food", "phone", "entertainment", "education", "beauty", "sports",
    "social", "transport", "clothing", "car", "drinks", "electronics", "travel",
    "health", "pets", "repairs", "housing", "home", "gifts", "donations", "lottery",
    "snacks", "kids", "vegetables", "fruits", "custom", "salary", "investments",
    "part_time", "awards", "others", "transfer"
  ]

  /** The labels of the catalogs taken together, in order. */
  const CatalogLabels: seq<string> := [
    "Compras", "Comida", "Telefone", "Entretenimento", "Educação", "Beleza", "Esportes",
    "Social", "Transporte", "Roupas", "Carro", "Bebidas", "Eletrônicos", "Viagem",
    "Saúde", "Pets", "Reparos", "Moradia", "Lar", "Presentes", "Doações", "Loteria",
    "Lanches", "Filhos", "Vegetais", "Frutas", "Configurações", "Salário",
    "Investimentos", "Meio Período", "Prêmios", "Outros", "Transferência"
  ]

  lemma IdsMatch()
    ensures |AllCategories()| == |CatalogIds|
    ensures forall i :: 0 <= i < |AllCategories()| ==> AllCategories()[i].id == CatalogIds[i]
  {
  }

  lemma LabelsMatch()
    ensures |AllCategories()| == |CatalogLabels|
    ensures forall i :: 0 <= i < |AllCategories()| ==> AllCategories()[i].labelText == CatalogLabels[i]
  {
  }

  lemma IdsNewFirst()
    ensures forall i, j :: 0 <= i < 16 && 0 <= j < i ==> CatalogIds[i] != CatalogIds[j]
  {
  }

  lemma IdsNewSecond()
    ensures forall i, j :: 16 <= i < 24 && 0 <= j < i ==> CatalogIds[i] != CatalogIds[j]
  {
  }

  lemma IdsNewThird()
    ensures forall i, j :: 24 <= i < 29 && 0 <= j < i ==> CatalogIds[i] != CatalogIds[j]
  {
  }

  lemma IdsNewFourth()
    ensures forall i, j :: 29 <= i < 33 && 0 <= j < i ==> CatalogIds[i] != CatalogIds[j]
  {
  }

  lemma LabelsNewFirst()
    ensures forall i, j :: 0 <= i < 16 && 0 <= j < i ==> CatalogLabels[i] != CatalogLabels[j]
  {
  }

  lemma LabelsNewSecond()
    ensures forall i, j :: 16 <= i < 24 && 0 <= j < i ==> CatalogLabels[i] != CatalogLabels[j]
  {
  }

  lemma LabelsNewThird()
    ensures forall i, j :: 24 <= i < 29 && 0 <= j < i ==> CatalogLabels[i] != CatalogLabels[j]
  {
  }

  lemma LabelsNewFourth()
    ensures forall i, j :: 29 <= i < 33 && 0 <= j < i ==> CatalogLabels[i] != CatalogLabels[j]
  {
  }

  /** No two entries of the catalogs, taken together, share an id. */
  lemma IdsUnique()
    ensures forall i, j :: 0 <= j < i < |AllCategories()| ==> AllCategories()[i].id != AllCategories()[j].id
  {
    IdsMatch();
    IdsNewFirst();
    IdsNewSecond();
    IdsNewThird();
    IdsNewFourth();
  }

  /** No two entries of the catalogs, taken together, share a label. */
  lemma LabelsUnique()
    ensures forall i, j :: 0 <= j < i < |AllCategories()| ==> AllCategories()[i].labelText != AllCategories()[j].labelText
  {
    LabelsMatch();
    LabelsNewFirst();
    LabelsNewSecond();
    LabelsNewThird();
    LabelsNewFourth();
  }

  /** "Investimentos", the label that triggers a goal contribution, is an
      income category and belongs to no other catalog. */
  lemma InvestimentosOnlyIncome()
    ensures exists i :: 0 <= i < |IncomeCategories| && IncomeCategories[i].labelText == "Investimentos"
    ensures forall i :: 0 <= i < |ExpenseCategories| ==> ExpenseCategories[i].labelText != "Investimentos"
    ensures forall i :: 0 <= i < |TransferCategories| ==> TransferCategories[i].labelText != "Investimentos"
  {
    assert IncomeCategories[1].labelText == "Investimentos";
  }

  /** The daily challenge looks for transactions labelled "Extra" or
      "Lazer"; no catalog entry carries either label, so entries made from
      the catalogs never feed it. */
  lemma NoChallengeLabels()
    ensures forall i :: 0 <= i < |AllCategories()| ==>
      AllCategories()[i].labelText != "Extra" && AllCategories()[i].labelText != "Lazer"
  {
  }
}
