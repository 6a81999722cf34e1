/** The two sides of the table. The serving player is held in the `Server`
    resource, which in this revision is always `Player1`. */
module Players {

  datatype Player = Player1 | Player2

}
