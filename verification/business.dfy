/** The two flat records of the business calculator and field-wise access
    to the input record.  Every JavaScript `number` is a `real` here, so the
    accounting identities below hold exactly; IEEE-754 rounding is not part
    of the model. */
module Business {

  /** What the user enters: two free-text fields and eleven numbers. */
  datatype BusinessInputs = BusinessInputs(
    businessName: string,
    businessDescription: string,
    sellingPrice: real,       // per unit
    productCost: real,        // per unit
    variableCosts: real,      // per unit
    monthlySales: real,       // units per month
    duration: real,           // months
    marketingCost: real,      // per month
    staffRentCost: real,      // per month
    otherFixedCosts: real,    // per month
    initialInvestment: real,  // once
    taxRate: real,            // percent
    discountRate: real        // percent
  )

  /** What the calculator reports. */
  datatype BusinessResults = BusinessResults(
    totalRevenue: real,   // after discount and tax
    totalCost: real,
    profit: real,
    profitMargin: real,   // percent of totalRevenue
    roi: real,            // percent of fixed costs plus investment
    breakevenUnits: real, // units per month that cover the monthly fixed costs
    breakevenDays: real   // breakevenUnits / monthlySales, i.e. months of sales
  )

  /** The keys of `BusinessInputs`, split by the kind of value they hold. */
  datatype TextField = BusinessName | BusinessDescription

  datatype NumField =
    | SellingPrice | ProductCost | VariableCosts | MonthlySales | Duration
    | MarketingCost | StaffRentCost | OtherFixedCosts | InitialInvestment
    | TaxRate | DiscountRate

  datatype Field = TextKey(t: TextField) | NumKey(n: NumField)

  /** The value of one field: the `string | number` of the input handler. */
  datatype Value = Text(s: string) | Num(x: real)

  /** A well-kinded single-field edit: a text field gets a string, a numeric
      field gets a number. */
  datatype Edit = TextEdit(tf: TextField, text: string) | NumberEdit(nf: NumField, amount: real) {

    function Key(): Field {
      match this
      case TextEdit(f, _) => TextKey(f)
      case NumberEdit(f, _) => NumKey(f)
    }

    function NewValue(): Value {
      match this
      case TextEdit(_, s) => Text(s)
      case NumberEdit(_, x) => Num(x)
    }
  }

  function GetText(i: BusinessInputs, f: TextField): string {
    match f
    case BusinessName => i.businessName
    case BusinessDescription => i.businessDescription
  }

  function GetNum(i: BusinessInputs, f: NumField): real {
    match f
    case SellingPrice => i.sellingPrice
    case ProductCost => i.productCost
    case VariableCosts => i.variableCosts
    case MonthlySales => i.monthlySales
    case Duration => i.duration
    case MarketingCost => i.marketingCost
    case StaffRentCost => i.staffRentCost
    case OtherFixedCosts => i.otherFixedCosts
    case InitialInvestment => i.initialInvestment
    case TaxRate => i.taxRate
    case DiscountRate => i.discountRate
  }

  /** Reads the field `f`, as `inputs[f]` does. */
  function Get(i: BusinessInputs, f: Field): Value {
    match f
    case TextKey(t) => Text(GetText(i, t))
    case NumKey(n) => Num(GetNum(i, n))
  }

  /** `{ ...i, [field]: value }`: the record with one field replaced. */
  function Apply(i: BusinessInputs, e: Edit): (r: BusinessInputs)
    ensures Get(r, e.Key()) == e.NewValue()
    ensures forall g :: g != e.Key() ==> Get(r, g) == Get(i, g)
  {
    match e
    case TextEdit(BusinessName, s) => i.(businessName := s)
    case TextEdit(BusinessDescription, s) => i.(businessDescription := s)
    case NumberEdit(SellingPrice, x) => i.(sellingPrice := x)
    case NumberEdit(ProductCost, x) => i.(productCost := x)
    case NumberEdit(VariableCosts, x) => i.(variableCosts := x)
    case NumberEdit(MonthlySales, x) => i.(monthlySales := x)
    case NumberEdit(Duration, x) => i.(duration := x)
    case NumberEdit(MarketingCost, x) => i.(marketingCost := x)
    case NumberEdit(StaffRentCost, x) => i.(staffRentCost := x)
    case NumberEdit(OtherFixedCosts, x) => i.(otherFixedCosts := x)
    case NumberEdit(InitialInvestment, x) => i.(initialInvestment := x)
    case NumberEdit(TaxRate, x) => i.(taxRate := x)
    case NumberEdit(DiscountRate, x) => i.(discountRate := x)
  }

  /** A record is determined by the values of its fields. */
  lemma FieldsDetermineRecord(a: BusinessInputs, b: BusinessInputs)
    requires forall f :: Get(a, f) == Get(b, f)
    ensures a == b
  {
    forall t: TextField ensures GetText(a, t) == GetText(b, t) {
      assert Get(a, TextKey(t)) == Get(b, TextKey(t));
    }
    forall n: NumField ensures GetNum(a, n) == GetNum(b, n) {
      assert Get(a, NumKey(n)) == Get(b, NumKey(n));
    }
    assert a.businessName == GetText(a, BusinessName) && a.businessDescription == GetText(a, BusinessDescription);
    assert a.sellingPrice == GetNum(a, SellingPrice) && a.productCost == GetNum(a, ProductCost);
    assert a.variableCosts == GetNum(a, VariableCosts) && a.monthlySales == GetNum(a, MonthlySales);
    assert a.duration == GetNum(a, Duration) && a.marketingCost == GetNum(a, MarketingCost);
    assert a.staffRentCost == GetNum(a, StaffRentCost) && a.otherFixedCosts == GetNum(a, OtherFixedCosts);
    assert a.initialInvestment == GetNum(a, InitialInvestment) && a.taxRate == GetNum(a, TaxRate);
    assert a.discountRate == GetNum(a, DiscountRate);
  }

  /** Writing a field's current value back changes nothing. */
  lemma ApplyCurrentValueIsIdentity(i: BusinessInputs, e: Edit)
    requires e.NewValue() == Get(i, e.Key())
    ensures Apply(i, e) == i
  {
    FieldsDetermineRecord(Apply(i, e), i);
  }

  /** A later edit of the same field overwrites an earlier one. */
  lemma ApplyLastWriteWins(i: BusinessInputs, e1: Edit, e2: Edit)
    requires e1.Key() == e2.Key()
    ensures Apply(Apply(i, e1), e2) == Apply(i, e2)
  {
    FieldsDetermineRecord(Apply(Apply(i, e1), e2), Apply(i, e2));
  }

  /** Edits of different fields can be made in either order. */
  lemma ApplyDistinctFieldsCommute(i: BusinessInputs, e1: Edit, e2: Edit)
    requires e1.Key() != e2.Key()
    ensures Apply(Apply(i, e1), e2) == Apply(Apply(i, e2), e1)
  {
    FieldsDetermineRecord(Apply(Apply(i, e1), e2), Apply(Apply(i, e2), e1));
  }
}
