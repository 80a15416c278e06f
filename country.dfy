/** A territory of the game map (`Country`) and the continent it registers
    with. */
module Territories {
  import opened Js

  /** The continent a country belongs to. Its own class is not part of this
      model; all a country relies on is `addCountry`, modelled as recording
      the country at the end of the continent's list. */
  class Continent {
    var countries: seq<Country>

    constructor ()
      ensures countries == []
    {
      countries := [];
    }

    method AddCountry(c: Country)
      modifies this
      ensures countries == old(countries) + [c]
    {
      countries := countries + [c];
    }
  }

  /** A player, identified by name; the player object itself is not part of
      this model. */
  type Player = string

  /** A territory: name, mesh path and neighbour names fixed at construction;
      owner, soldier count and continent changed through setters. */
  class Country {
    const name: string
    const path: string
    const neighbors: seq<string>
    var owner: Option<Player>
    var continent: Continent
    var soldiers: int

    /** `new Country(name, path, continent, neighbors)`: no owner, no soldiers,
        and the continent setter has registered the country with `continent`. */
    constructor (name: string, path: string, continent: Continent, neighbors: seq<string>)
      modifies continent
      ensures this.name == name && this.path == path && this.neighbors == neighbors
      ensures this.continent == continent && owner == None && soldiers == 0
      ensures continent.countries == old(continent.countries) + [this]
    {
      this.name := name;
      this.path := path;
      this.neighbors := neighbors;
      this.owner := None;
      this.continent := continent;
      this.soldiers := 0;
      new;
      continent.AddCountry(this);
    }

    /** `set continent(c)`: store the link, then register with `c`. */
    method SetContinent(c: Continent)
      modifies this`continent, c
      ensures continent == c
      ensures c.countries == old(c.countries) + [this]
      ensures owner == old(owner) && soldiers == old(soldiers)
    {
      continent := c;
      c.AddCountry(this);
    }

    /** `set owner(p)`: replaces the owner and nothing else. */
    method SetOwner(p: Option<Player>)
      modifies this`owner
      ensures owner == p
      ensures soldiers == old(soldiers) && continent == old(continent)
    {
      owner := p;
    }

    /** `set soldiers(n)`: replaces the soldier count and nothing else. */
    method SetSoldiers(n: int)
      modifies this`soldiers
      ensures soldiers == n
      ensures owner == old(owner) && continent == old(continent)
    {
      soldiers := n;
    }

    /** `findNeighbor(name)`: the first position of `name` among the
        neighbours, or -1 when it is not one of them. */
    method FindNeighbor(n: string) returns (i: int)
      ensures -1 <= i < |neighbors|
      ensures i == -1 <==> n !in neighbors
      ensures 0 <= i ==> neighbors[i] == n && forall j :: 0 <= j < i ==> neighbors[j] != n
    {
      var k := 0;
      while k < |neighbors|
        invariant 0 <= k <= |neighbors|
        invariant forall j :: 0 <= j < k ==> neighbors[j] != n
      {
        if neighbors[k] == n {
          return k;
        }
        k := k + 1;
      }
      return -1;
    }
  }
}
