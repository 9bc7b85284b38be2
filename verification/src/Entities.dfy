/** What the card-game modules call a card, a player or anything else on the board. */
module Entities {
  type EntityID = nat
}
