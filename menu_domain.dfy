/**
 * The menu item of the domain layer: its name, description, price, category
 * and availability, each changed in place.
 */
module MenuDomain {
  import opened Common
  import opened JavaInt
  import opened Exceptions

  /** A menu category; only equality between categories matters here. */
  type MenuCategory = nat

  /** The statuses a menu item is marked with. */
  datatype MenuStatus = Available | Unavailable

  datatype MenuData = MenuData(id: Uuid, storeId: Uuid, name: Option<string>, description: Option<string>,
                               price: Int32, category: Option<MenuCategory>, status: Option<MenuStatus>)

  class Menu {
    const id: Uuid
    const storeId: Uuid
    var name: Option<string>
    var description: Option<string>
    var price: Int32
    var category: Option<MenuCategory>
    var status: Option<MenuStatus>

    function Data(): MenuData
      reads this
    {
      MenuData(id, storeId, name, description, price, category, status)
    }

    /** The builder: nothing it is given is checked, a negative price included. */
    constructor (data: MenuData)
      ensures Data() == data
    {
      id, storeId, name, description := data.id, data.storeId, data.name, data.description;
      price, category, status := data.price, data.category, data.status;
    }

    method UpdateName(name: Option<string>)
      modifies this`name
      ensures this.name == name
    {
      this.name := name;
    }

    method UpdateDescription(description: Option<string>)
      modifies this`description
      ensures this.description == description
    {
      this.description := description;
    }

    /** Rejects a negative price and leaves the old one in place; zero is
        accepted. */
    method UpdatePrice(price: Int32) returns (out: Outcome)
      modifies this`price
      ensures price < 0 ==> out == Fail(InvalidPrice) && this.price == old(this.price)
      ensures price >= 0 ==> out == Done && this.price == price
    {
      if price < 0 {
        return Fail(InvalidPrice);
      }
      this.price := price;
      out := Done;
    }

    method ChangeCategory(category: Option<MenuCategory>)
      modifies this`category
      ensures this.category == category
    {
      this.category := category;
    }

    method MarkAvailable()
      modifies this`status
      ensures status == Some(Available)
    {
      status := Some(Available);
    }

    method MarkUnavailable()
      modifies this`status
      ensures status == Some(Unavailable)
    {
      status := Some(Unavailable);
    }

    /** Only AVAILABLE counts as available: a menu with no status is not. */
    function IsAvailable(): (r: bool)
      reads this`status
      ensures r <==> status == Some(Available)
    {
      status == Some(Available)
    }
  }

  /** A rejected price leaves the old one, even one the builder let through
      negative; an accepted one replaces it. */
  method PriceUpdates(data: MenuData, rejected: Int32, accepted: Int32) returns (afterRejected: Int32, afterAccepted: Int32, out: Outcome)
    requires rejected < 0 <= accepted
    ensures afterRejected == data.price && afterAccepted == accepted
    ensures out == Fail(InvalidPrice)
  {
    var m := new Menu(data);
    out := m.UpdatePrice(rejected);
    afterRejected := m.price;
    var _ := m.UpdatePrice(accepted);
    afterAccepted := m.price;
  }

  /** Marking availability toggles `isAvailable` both ways. */
  method AvailabilityToggles(data: MenuData) returns (afterMarkUnavailable: bool, afterMarkAvailable: bool)
    ensures !afterMarkUnavailable && afterMarkAvailable
  {
    var m := new Menu(data);
    m.MarkUnavailable();
    afterMarkUnavailable := m.IsAvailable();
    m.MarkAvailable();
    afterMarkAvailable := m.IsAvailable();
  }
}
