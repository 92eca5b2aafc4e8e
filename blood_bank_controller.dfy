/** The blood-bank stock update (server/controllers/bloodBankController.js,
    `updateStock`, over the document of server/models/BloodBank.js): adds a
    quantity to one blood group's stock and stamps the update time. The
    stored banks are the field of `BloodBankRegistry`. */
module BloodBankController {
  import opened Common

  /** The eight blood groups the schema stores, each defaulting to 0. */
  const BloodGroups: set<string> := {"A+", "A-", "B+", "B-", "AB+", "AB-", "O+", "O-"}

  datatype BloodBank = BloodBank(
    name: string,
    location: string,
    contact: string,
    stock: map<string, int>,
    lastUpdated: int)

  /** A stock holds a count for every blood group of the schema and for
      nothing else. */
  predicate WellFormedStock(stock: map<string, int>) {
    stock.Keys == BloodGroups
  }

  /** A new bank's stock: zero of every group. */
  function EmptyStock(): (stock: map<string, int>)
    ensures WellFormedStock(stock)
    ensures forall g :: g in stock ==> stock[g] == 0
  {
    map g | g in BloodGroups :: 0
  }

  /** `stock[group] = (stock[group] || 0) + quantity`; a group outside the
      schema is not stored (the schema is strict), so it leaves the stock as
      it was. No bound is enforced: a negative quantity can take a count
      below zero. */
  function Restocked(stock: map<string, int>, group: string, quantity: int): map<string, int> {
    if group in BloodGroups then
      stock[group := (if group in stock then stock[group] else 0) + quantity]
    else stock
  }

  /** Restocking keeps the stock well formed, changes only the named group,
      and two updates of one group add up. */
  lemma RestockedProperties(stock: map<string, int>, group: string, a: int, b: int)
    requires WellFormedStock(stock)
    ensures WellFormedStock(Restocked(stock, group, a))
    ensures forall g :: g in stock && g != group ==> Restocked(stock, group, a)[g] == stock[g]
    ensures group in BloodGroups ==> Restocked(stock, group, a)[group] == stock[group] + a
    ensures Restocked(Restocked(stock, group, a), group, b) == Restocked(stock, group, a + b)
  {
  }

  /** Updates of different groups do not interfere: their order does not
      matter. */
  lemma RestockedCommutes(stock: map<string, int>, g1: string, q1: int, g2: string, q2: int)
    requires WellFormedStock(stock) && g1 != g2
    ensures Restocked(Restocked(stock, g1, q1), g2, q2) == Restocked(Restocked(stock, g2, q2), g1, q1)
  {
  }

  /** The stored blood banks by identifier. */
  class BloodBankRegistry {
    var banks: map<Id, BloodBank>

    /** Every stored bank's stock is well formed. */
    predicate Valid()
      reads this
    {
      forall id :: id in banks ==> WellFormedStock(banks[id].stock)
    }

    constructor (banks: map<Id, BloodBank>)
      requires forall id :: id in banks ==> WellFormedStock(banks[id].stock)
      ensures Valid() && this.banks == banks
    {
      this.banks := banks;
    }

    /** `updateStock`: 404 for an unknown bank; otherwise the group's count
        grows by `quantity`, `lastUpdated` becomes `now`, and the answer is
        200; a failed save (`saveFails`) is a 500 and stores nothing. */
    method UpdateStock(id: Id, group: string, quantity: int, now: int, saveFails: bool) returns (status: int)
      requires Valid()
      modifies this
      ensures Valid()
      ensures id !in old(banks) ==> status == 404 && banks == old(banks)
      ensures id in old(banks) && saveFails ==> status == 500 && banks == old(banks)
      ensures id in old(banks) && !saveFails ==>
        && status == 200
        && banks == old(banks)[id := old(banks)[id].(
             stock := Restocked(old(banks)[id].stock, group, quantity),
             lastUpdated := now)]
    {
      if id !in banks {
        return 404;
      }
      var bank := banks[id];
      var stock := Restocked(bank.stock, group, quantity);
      RestockedProperties(bank.stock, group, quantity, 0);
      if saveFails {
        return 500;
      }
      banks := banks[id := bank.(stock := stock, lastUpdated := now)];
      status := 200;
    }
  }
}
