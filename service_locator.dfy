/** The service-locator demo: database services registered under their own
    names and looked up by name. */
module ServiceLocator {
  import opened Wrappers

  /** The two implementations of the DatabaseService interface. */
  datatype DatabaseService = PostgreSQL | MySQL {
    function GetName(): string {
      match this
      case PostgreSQL => "PostgreSQL"
      case MySQL => "MySQL"
    }

    function Connect(): string {
      match this
      case PostgreSQL => "Connected to PostgreSQL"
      case MySQL => "Connected to MySQL"
    }
  }

  /** The two services have different names, so both can be registered. */
  lemma NamesDistinct(a: DatabaseService, b: DatabaseService)
    ensures a.GetName() == b.GetName() <==> a == b
  {
  }

  /** Connecting reports the service's own name. */
  lemma ConnectNamesService(s: DatabaseService)
    ensures s.Connect() == "Connected to " + s.GetName()
  {
  }

  const ServiceNotFound := "Service Not Found"

  /** GetService on the registered services. */
  function Lookup(services: map<string, DatabaseService>, name: string): Result<DatabaseService> {
    if name in services then Ok(services[name]) else Err(ServiceNotFound)
  }

  /** A registered service is found under its name, and registering one does
      not change what any other name finds. */
  lemma RegisterThenLookup(services: map<string, DatabaseService>, s: DatabaseService, name: string)
    ensures Lookup(services[s.GetName() := s], s.GetName()) == Ok(s)
    ensures name != s.GetName() ==> Lookup(services[s.GetName() := s], name) == Lookup(services, name)
  {
  }

  class DatabaseServiceLocator {
    var services: map<string, DatabaseService>

    /** Every service is registered under its own name. */
    ghost predicate Valid()
      reads this
    {
      forall name :: name in services ==> services[name].GetName() == name
    }

    /** The demo's locator with `make(map[string]DatabaseService)`. */
    constructor ()
      ensures Valid() && services == map[]
    {
      services := map[];
    }

    /** A found service is the one whose own name was asked for. */
    method GetService(serviceName: string) returns (r: Result<DatabaseService>)
      requires Valid()
      ensures r == Lookup(services, serviceName)
      ensures r.Ok? <==> serviceName in services
      ensures r.Ok? ==> r.value.GetName() == serviceName
    {
      r := Lookup(services, serviceName);
    }

    /** Stores the service under its own name, replacing an earlier one. */
    method RegisterService(service: DatabaseService)
      requires Valid()
      modifies this
      ensures Valid() && services == old(services)[service.GetName() := service]
    {
      services := services[service.GetName() := service];
    }
  }

  /** The demo: both services registered, each found and connected. */
  method Demo() returns (first: Result<string>, second: Result<string>)
    ensures first == Ok("Connected to PostgreSQL") && second == Ok("Connected to MySQL")
  {
    var locator := new DatabaseServiceLocator();
    locator.RegisterService(PostgreSQL);
    locator.RegisterService(MySQL);
    assert PostgreSQL.GetName() != MySQL.GetName() by { NamesDistinct(PostgreSQL, MySQL); }
    var service := locator.GetService("PostgreSQL");
    first := Ok(service.value.Connect());
    service := locator.GetService("MySQL");
    second := Ok(service.value.Connect());
  }
}
