/**
 * `cgProps` of components/chessground/cg-props.ts: the partial board
 * configuration derived from the board component's properties.  A key absent
 * from the configuration is `None`; the read-only `movable` record also sets
 * its `color` and `dests` keys, to `undefined`, which `clearsColorAndDests`
 * records.
 */
module CgProps {
  import opened JsText

  /** The properties `cgProps` reads; an omitted property is `None`. */
  datatype ChessProps = ChessProps(
    fen: Option<string>,
    readOnly: Option<bool>,
    viewOnly: Option<bool>,
    animation: Option<bool>)

  datatype Movable = Movable(free: Option<bool>, clearsColorAndDests: bool, showDests: Option<bool>)

  datatype Toggle = Toggle(enabled: bool)

  datatype Config = Config(
    fen: Option<string>,
    movable: Option<Movable>,
    draggable: Option<Toggle>,
    premovable: Option<Toggle>,
    viewOnly: Option<bool>,
    animation: Option<Toggle>)

  const EmptyConfig := Config(None, None, None, None, None, None)

  /** The names of the keys a configuration sets. */
  function Keys(config: Config): set<string> {
    (if config.fen.Some? then {"fen"} else {})
    + (if config.movable.Some? then {"movable"} else {})
    + (if config.draggable.Some? then {"draggable"} else {})
    + (if config.premovable.Some? then {"premovable"} else {})
    + (if config.viewOnly.Some? then {"viewOnly"} else {})
    + (if config.animation.Some? then {"animation"} else {})
  }

  /** `{ ...movable, showDests: true }` */
  function WithShowDests(movable: Option<Movable>): Movable {
    match movable
    case None => Movable(None, false, Some(true))
    case Some(m) => m.(showDests := Some(true))
  }

  /** `cgProps(props)` */
  method CgPropsOf(props: ChessProps) returns (config: Config)
    ensures config.fen == if props.fen.Some? && props.fen.value != "" then props.fen else None
    ensures props.readOnly == Some(true) ==>
              config.movable == Some(Movable(Some(false), true, Some(false)))
              && config.draggable == Some(Toggle(false)) && config.premovable == Some(Toggle(false))
    ensures props.readOnly != Some(true) ==>
              config.movable == Some(Movable(None, false, Some(true)))
              && config.draggable.None? && config.premovable.None?
    ensures config.viewOnly == if props.viewOnly == Some(true) then Some(true) else None
    ensures config.animation == if props.animation == Some(false) then Some(Toggle(false)) else None
    ensures "movable" in Keys(config)
    ensures Keys(config) <= {"fen", "movable", "draggable", "premovable", "viewOnly", "animation"}
  {
    config := EmptyConfig;
    if props.fen.Some? && props.fen.value != "" {
      config := config.(fen := props.fen);
    }
    if props.readOnly == Some(true) {
      config := config.(movable := Some(Movable(Some(false), true, Some(false))));
      config := config.(draggable := Some(Toggle(false)));
      config := config.(premovable := Some(Toggle(false)));
    } else {
      config := config.(movable := Some(WithShowDests(config.movable)));
    }
    if props.viewOnly == Some(true) {
      config := config.(viewOnly := Some(true));
    }
    if props.animation == Some(false) {
      config := config.(animation := Some(Toggle(false)));
    }
  }
}
