/** `SharedLedController`: the facade the iOS side calls. Its frame getters
    delegate to the builder and the colour table; its favourites operations
    build an `RgbColor` and delegate to the one repository it owns. */
module SharedController {
  import opened Wrappers
  import opened Checks
  import opened Bytes
  import opened Rgb
  import opened ColorMapper
  import opened CommandBuilder
  import opened Favorites

  /** The frame for a named colour: its table entry's colour frame. */
  function GetColorCommandBytes(color: LedColor): (frame: ByteArray)
    ensures frame == BuildColorCommandRgb(MapToRgb(color))
    ensures Unsigned(frame) == ColorLayout(MapToRgb(color).r, MapToRgb(color).g, MapToRgb(color).b)
  {
    BuildColorCommandRgb(MapToRgb(color))
  }

  /** The frame for explicit channels, or the builder's range error. */
  function GetColorCommandBytesRgb(r: int, g: int, b: int): (res: Result<ByteArray, IllegalArgument>)
    ensures res == BuildColorCommand(r, g, b)
    ensures res.Success? <==> InByteRange(r) && InByteRange(g) && InByteRange(b)
    ensures res.Success? ==> Unsigned(res.value) == ColorLayout(r, g, b)
  {
    BuildColorCommand(r, g, b)
  }

  function GetBrightnessCommandBytes(brightness: int): (res: Result<ByteArray, IllegalArgument>)
    ensures res == BuildBrightnessCommand(brightness)
    ensures res.Success? <==> InByteRange(brightness)
    ensures res.Success? ==> Unsigned(res.value) == BrightnessLayout(brightness)
  {
    BuildBrightnessCommand(brightness)
  }

  function GetPowerOnCommandBytes(): (frame: ByteArray)
    ensures Unsigned(frame) == PowerOnLayout
  {
    BuildPowerOnCommand()
  }

  function GetPowerOffCommandBytes(): (frame: ByteArray)
    ensures Unsigned(frame) == PowerOffLayout
  {
    BuildPowerOffCommand()
  }

  /** The (r, g, b) triple of a colour, as the facade hands it to Swift. */
  function Triple(c: RgbColor): (int, int, int) {
    (c.r, c.g, c.b)
  }

  class SharedLedController {
    const favoritesRepository: FavoritesRepository

    constructor()
      ensures fresh(favoritesRepository)
      ensures favoritesRepository.Valid() && favoritesRepository.favorites == []
    {
      favoritesRepository := new FavoritesRepository();
    }

    /** Throws (here: fails) before touching the repository when a channel
        is out of range; otherwise the repository's answer. */
    method AddFavorite(r: int, g: int, b: int) returns (res: Result<bool, IllegalArgument>)
      requires favoritesRepository.Valid()
      modifies favoritesRepository
      ensures favoritesRepository.Valid()
      ensures res.Failure? <==> !(InByteRange(r) && InByteRange(g) && InByteRange(b))
      ensures res.Failure? ==>
        MakeRgbColor(r, g, b) == Failure(res.error) && favoritesRepository.favorites == old(favoritesRepository.favorites)
      ensures res.Success? ==>
        var c := RgbColor(r, g, b);
        && (res.value <==> |old(favoritesRepository.favorites)| < MaxFavorites && c !in old(favoritesRepository.favorites))
        && favoritesRepository.favorites == if res.value then old(favoritesRepository.favorites) + [c] else old(favoritesRepository.favorites)
    {
      var color := MakeRgbColor(r, g, b);
      if color.Failure? {
        return Failure(color.error);
      }
      var added := favoritesRepository.AddFavorite(color.value);
      res := Success(added);
    }

    method RemoveFavorite(r: int, g: int, b: int) returns (res: Result<bool, IllegalArgument>)
      requires favoritesRepository.Valid()
      modifies favoritesRepository
      ensures favoritesRepository.Valid()
      ensures res.Failure? <==> !(InByteRange(r) && InByteRange(g) && InByteRange(b))
      ensures res.Failure? ==>
        MakeRgbColor(r, g, b) == Failure(res.error) && favoritesRepository.favorites == old(favoritesRepository.favorites)
      ensures res.Success? ==>
        var c := RgbColor(r, g, b);
        && (res.value <==> c in old(favoritesRepository.favorites))
        && favoritesRepository.favorites == RemoveFirst(old(favoritesRepository.favorites), c)
    {
      var color := MakeRgbColor(r, g, b);
      if color.Failure? {
        return Failure(color.error);
      }
      var removed := favoritesRepository.RemoveFavorite(color.value);
      res := Success(removed);
    }

    /** The favourites as triples, same length and order as the repository. */
    method GetFavorites() returns (triples: seq<(int, int, int)>)
      ensures |triples| == |favoritesRepository.favorites|
      ensures forall i :: 0 <= i < |triples| ==>
        triples[i] == (favoritesRepository.favorites[i].r, favoritesRepository.favorites[i].g, favoritesRepository.favorites[i].b)
    {
      var list := favoritesRepository.GetFavorites();
      triples := seq(|list|, i requires 0 <= i < |list| => Triple(list[i]));
    }

    method CanAddMoreFavorites() returns (room: bool)
      ensures room <==> |favoritesRepository.favorites| < MaxFavorites
    {
      room := favoritesRepository.CanAddMore();
    }
  }
}
