/** The persisted application store: its default seed and the schema merge
    applied when a stored copy is loaded. Reading and parsing the stored
    copy are not modelled; their result is an input. */
module Database {
  import opened Wrappers
  import Types

  datatype UserRole = Customer | Admin
  datatype User = User(id: string, name: string, role: UserRole)

  datatype AgentStatus = Available | OnDelivery
  datatype DeliveryAgent = DeliveryAgent(id: string, name: string, phone: string, status: AgentStatus)

  /** `hourlyRate` is in cents. */
  datatype Employee = Employee(id: string, name: string, hourlyRate: nat, currentHours: int)

  /** A payroll entry; the merge never looks inside one. */
  datatype PayrollRecord = PayrollRecord(id: string)

  datatype Vendor = Vendor(id: string, name: string, contactPerson: string, phone: string, email: string, products: seq<string>)

  datatype SystemSettings = SystemSettings(cafeName: string, welcomeMessage: string, operatingHours: string)

  /** The whole store, saved and loaded as one unit. */
  datatype CafeDatabase = CafeDatabase(
    users: seq<User>,
    orders: seq<Types.Order>,
    systemSettings: SystemSettings,
    deliveryAgents: seq<DeliveryAgent>,
    employees: seq<Employee>,
    payrollHistory: seq<PayrollRecord>,
    vendors: seq<Vendor>)

  /** A parsed stored settings object: each field may be missing. */
  datatype StoredSettings = StoredSettings(cafeName: Option<string>, welcomeMessage: Option<string>, operatingHours: Option<string>)

  /** A parsed stored store, perhaps written by an older version of the app:
      each top-level field may be missing. */
  datatype StoredDatabase = StoredDatabase(
    users: Option<seq<User>>,
    orders: Option<seq<Types.Order>>,
    systemSettings: Option<StoredSettings>,
    deliveryAgents: Option<seq<DeliveryAgent>>,
    employees: Option<seq<Employee>>,
    payrollHistory: Option<seq<PayrollRecord>>,
    vendors: Option<seq<Vendor>>)

  /** `getDefaultDatabase`: the seed store, with no orders and no payroll
      history. */
  function DefaultDatabase(): (db: CafeDatabase)
    ensures db.orders == [] && db.payrollHistory == []
    ensures |db.users| == 2 && |db.deliveryAgents| == 2 && |db.employees| == 2 && |db.vendors| == 3
    ensures db.systemSettings.cafeName != "" && db.systemSettings.welcomeMessage != ""
      && db.systemSettings.operatingHours != ""
  {
    CafeDatabase(
      [ User("user-1", "Alice Admin", Admin),
        User("user-2", "Bob Customer", Customer) ],
      [],
      SystemSettings(
        "Stanley's Cafe",
        "Welcome to Stanley's Cafe! I can help you with our menu and take your order. What would you like today?",
        "9 AM - 8 PM Daily"),
      [ DeliveryAgent("agent-1", "John Fleet", "555-1234", Available),
        DeliveryAgent("agent-2", "Maria Go", "555-5678", OnDelivery) ],
      [ Employee("emp-1", "Charlie Barista", 1850, 0),
        Employee("emp-2", "Dana Chef", 2200, 0) ],
      [],
      [ Vendor("vendor-1", "Artisan Coffee Roasters", "Dave Roast", "555-2633", "dave@artisan.com",
               ["Coffee Beans", "Espresso Machines"]),
        Vendor("vendor-2", "Farm Fresh Dairy", "Molly Milk", "555-6455", "molly@farmfresh.com",
               ["Milk", "Cream", "Butter"]),
        Vendor("vendor-3", "Bakery Delights", "Peter Pastry", "555-2253", "peter@bakerydelights.com",
               ["Croissants", "Muffins", "Bread"]) ])
  }

  /** `value` is what an object spread of `stored` over `fallback` yields for
      one field: the stored value when present, the fallback otherwise. */
  predicate Overlays<T(==)>(value: T, stored: Option<T>, fallback: T) {
    (stored.Some? ==> value == stored.value) && (stored.None? ==> value == fallback)
  }

  /** `{ ...defaults, ...stored }` on the settings object. */
  function MergeSettings(defaults: SystemSettings, stored: Option<StoredSettings>): (r: SystemSettings)
    ensures stored.None? ==> r == defaults
    ensures stored.Some? ==>
      && Overlays(r.cafeName, stored.value.cafeName, defaults.cafeName)
      && Overlays(r.welcomeMessage, stored.value.welcomeMessage, defaults.welcomeMessage)
      && Overlays(r.operatingHours, stored.value.operatingHours, defaults.operatingHours)
  {
    match stored
    case None => defaults
    case Some(p) =>
      SystemSettings(p.cafeName.GetOr(defaults.cafeName),
                     p.welcomeMessage.GetOr(defaults.welcomeMessage),
                     p.operatingHours.GetOr(defaults.operatingHours))
  }

  /** `loadDatabase`, given what reading and parsing the stored copy
      produced: `None` when nothing usable was stored or reading threw. A
      stored top-level field replaces the default wholesale; only the
      settings are merged one level deeper. */
  function LoadDatabase(stored: Option<StoredDatabase>): (db: CafeDatabase)
    ensures stored.None? ==> db == DefaultDatabase()
    ensures stored.Some? ==>
      var p := stored.value;
      var d := DefaultDatabase();
      && Overlays(db.users, p.users, d.users)
      && Overlays(db.orders, p.orders, d.orders)
      && Overlays(db.deliveryAgents, p.deliveryAgents, d.deliveryAgents)
      && Overlays(db.employees, p.employees, d.employees)
      && Overlays(db.payrollHistory, p.payrollHistory, d.payrollHistory)
      && Overlays(db.vendors, p.vendors, d.vendors)
      && db.systemSettings == MergeSettings(d.systemSettings, p.systemSettings)
  {
    match stored
    case None => DefaultDatabase()
    case Some(p) =>
      var d := DefaultDatabase();
      CafeDatabase(
        p.users.GetOr(d.users),
        p.orders.GetOr(d.orders),
        MergeSettings(d.systemSettings, p.systemSettings),
        p.deliveryAgents.GetOr(d.deliveryAgents),
        p.employees.GetOr(d.employees),
        p.payrollHistory.GetOr(d.payrollHistory),
        p.vendors.GetOr(d.vendors))
  }

  /** The stored form of a store written by this version: every field
      present. */
  function Stored(db: CafeDatabase): StoredDatabase {
    StoredDatabase(
      Some(db.users), Some(db.orders),
      Some(StoredSettings(Some(db.systemSettings.cafeName), Some(db.systemSettings.welcomeMessage),
                          Some(db.systemSettings.operatingHours))),
      Some(db.deliveryAgents), Some(db.employees), Some(db.payrollHistory), Some(db.vendors))
  }

  /** Loading a fully populated stored store gives it back unchanged. */
  lemma LoadStoredRoundTrip(db: CafeDatabase)
    ensures LoadDatabase(Some(Stored(db))) == db
  {
  }

  /** A stored store with no fields at all loads as the default store. */
  lemma LoadEmptyBlobIsDefault()
    ensures LoadDatabase(Some(StoredDatabase(None, None, None, None, None, None, None))) == DefaultDatabase()
  {
  }

  /** Stored settings missing some fields are back-filled from the seed
      while the other stored fields survive, e.g. a store saved before
      `operatingHours` existed. */
  lemma LoadBackfillsMissingSetting(p: StoredDatabase, name: string, welcome: string)
    requires p.systemSettings == Some(StoredSettings(Some(name), Some(welcome), None))
    ensures LoadDatabase(Some(p)).systemSettings
      == SystemSettings(name, welcome, DefaultDatabase().systemSettings.operatingHours)
  {
  }
}
