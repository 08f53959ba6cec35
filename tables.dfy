/**
 * The constant tables of the application (product categories, roles with
 * their permission lists, mock users, US states) and the lookups the request
 * handlers perform on them.  Every lookup is Python's
 * `next((x for x in TABLE if ...), None)`: the first entry that matches, or
 * nothing.
 */
module Tables {
  import opened Wrappers

  datatype Category = Category(id: string, name: string, description: string)
  datatype Role = Role(name: string, permissions: seq<string>, description: string)
  datatype User = User(id: string, name: string, email: string, role: string, department: string)

  const PRODUCT_CATEGORIES: seq<Category> := [
    Category("wine", "Wine", "Wine distribution agreements"),
    Category("spirit", "Spirit", "Spirit distribution agreements"),
    Category("rtd", "Ready-to-Drink", "RTD beverage agreements"),
    Category("na", "Non-Alcoholic", "Non-alcoholic beverage agreements"),
    Category("beer", "Beer", "Beer distribution agreements")
  ]

  const USER_ROLES: map<string, Role> := map[
    "legal" := Role("Legal",
      ["agreement_replication", "create_agreement", "contract_qa", "term_sheet",
       "financial_analysis", "knowledge_base", "upload"],
      "Full access to all legal tech workflows"),
    "finance" := Role("Finance",
      ["financial_analysis", "contract_qa", "knowledge_base", "upload"],
      "Financial analysis and contract review access"),
    "business" := Role("Business",
      ["contract_qa", "knowledge_base", "upload"],
      "Contract Q&A and knowledge base access")
  ]

  const MOCK_USERS: seq<User> := [
    User("1", "Sarah Johnson", "sarah.johnson@bbg.com", "legal", "Legal"),
    User("2", "Mike Chen", "mike.chen@bbg.com", "finance", "Finance"),
    User("3", "Jennifer Smith", "jennifer.smith@bbg.com", "business", "Business Development")
  ]

  const US_STATES: seq<string> := [
    "AL", "AK", "AZ", "AR", "CA", "CO", "CT", "DE", "FL", "GA",
    "HI", "ID", "IL", "IN", "IA", "KS", "KY", "LA", "ME", "MD",
    "MA", "MI", "MN", "MS", "MO", "MT", "NE", "NV", "NH", "NJ",
    "NM", "NY", "NC", "ND", "OH", "OK", "OR", "PA", "RI", "SC",
    "SD", "TN", "TX", "UT", "VT", "VA", "WA", "WV", "WI", "WY"
  ]

  /** The ids of the given categories, in order (the list comprehension of `select_category`). */
  function Ids(cats: seq<Category>): (ids: seq<string>)
    ensures |ids| == |cats|
    ensures forall i :: 0 <= i < |cats| ==> ids[i] == cats[i].id
  {
    if |cats| == 0 then [] else [cats[0].id] + Ids(cats[1..])
  }

  /** The index of the first element of `xs` that satisfies `p`, if any. */
  function FirstIndex<T>(xs: seq<T>, p: T -> bool): (r: Option<nat>)
    ensures r.Some? ==> r.value < |xs| && p(xs[r.value])
    ensures r.Some? ==> forall j :: 0 <= j < r.value ==> !p(xs[j])
    ensures r.None? ==> forall j :: 0 <= j < |xs| ==> !p(xs[j])
    decreases |xs|
  {
    if |xs| == 0 then None
    else if p(xs[0]) then Some(0)
    else match FirstIndex(xs[1..], p)
      case None => None
      case Some(i) => Some(i + 1)
  }

  /** The mock user whose email is the submitted form value (`login`). */
  function UserByEmail(email: Option<string>): (r: Option<User>)
    ensures r.Some? ==> r.value in MOCK_USERS && Some(r.value.email) == email
    ensures r.None? <==> forall u :: u in MOCK_USERS ==> Some(u.email) != email
  {
    match FirstIndex(MOCK_USERS, (u: User) => Some(u.email) == email)
    case Some(i) => Some(MOCK_USERS[i])
    case None => None
  }

  /** The mock user with the given id (the search inside `get_current_user`). */
  function UserById(id: string): (r: Option<User>)
    ensures r.Some? ==> r.value in MOCK_USERS && r.value.id == id
    ensures r.None? <==> forall u :: u in MOCK_USERS ==> u.id != id
  {
    match FirstIndex(MOCK_USERS, (u: User) => u.id == id)
    case Some(i) => Some(MOCK_USERS[i])
    case None => None
  }

  /** The category with the given id (the search every rendering view performs). */
  function CategoryById(id: string): (r: Option<Category>)
    ensures r.Some? ==> r.value in PRODUCT_CATEGORIES && r.value.id == id
    ensures r.None? <==> forall c :: c in PRODUCT_CATEGORIES ==> c.id != id
  {
    match FirstIndex(PRODUCT_CATEGORIES, (c: Category) => c.id == id)
    case Some(i) => Some(PRODUCT_CATEGORIES[i])
    case None => None
  }

  /** Whether a submitted `category_id` is among the ids of the category table. */
  predicate IsCategoryId(id: Option<string>): (b: bool)
    ensures b <==> id.Some? && exists c :: c in PRODUCT_CATEGORIES && c.id == id.value
  {
    id.Some? && id.value in Ids(PRODUCT_CATEGORIES)
  }

  /** The role record of a user; a role name missing from the table would raise KeyError. */
  function RoleOf(u: User): (r: Option<Role>)
    ensures r.Some? <==> u.role in USER_ROLES
    ensures r.Some? ==> r.value == USER_ROLES[u.role]
  {
    if u.role in USER_ROLES then Some(USER_ROLES[u.role]) else None
  }

  /** Exactly the five fixed ids are category ids, and each names a category. */
  lemma CategoryIdsAreTheFive(id: string)
    ensures IsCategoryId(Some(id)) <==> id in ["wine", "spirit", "rtd", "na", "beer"]
    ensures IsCategoryId(Some(id)) <==> CategoryById(id).Some?
  {
    assert Ids(PRODUCT_CATEGORIES) == ["wine", "spirit", "rtd", "na", "beer"];
  }

  /** Ids and emails identify mock users uniquely, and every user's role is in the role table. */
  lemma MockUsersWellFormed()
    ensures forall i, j :: 0 <= i < j < |MOCK_USERS| ==> MOCK_USERS[i].id != MOCK_USERS[j].id
    ensures forall i, j :: 0 <= i < j < |MOCK_USERS| ==> MOCK_USERS[i].email != MOCK_USERS[j].email
    ensures forall u :: u in MOCK_USERS ==> u.role in USER_ROLES
  {
  }

  /** The user a login finds is the user `get_current_user` finds again from the stored id. */
  lemma LoginIdResolves(email: Option<string>)
    requires UserByEmail(email).Some?
    ensures UserById(UserByEmail(email).value.id) == UserByEmail(email)
  {
    MockUsersWellFormed();
  }

  /** The permission lists nest: business within finance within legal. */
  lemma RolePermissionsNest()
    ensures forall p :: p in USER_ROLES["business"].permissions ==> p in USER_ROLES["finance"].permissions
    ensures forall p :: p in USER_ROLES["finance"].permissions ==> p in USER_ROLES["legal"].permissions
  {
  }
}
