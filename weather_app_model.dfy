/** The decoded records of WeatherAppModel.swift, as plain values. */
module WeatherAppModel {
  import opened Wrappers

  /** A Swift `Double`, kept as its 64 IEEE-754 bits: the view model only
      copies these values, it never computes with them. */
  datatype Double = Double(bits: bv64)

  const Zero := Double(0)

  /** One geocoding result. */
  datatype CitySuggestion = CitySuggestion(
    name: string,
    lat: Double,
    lon: Double,
    country: string,
    state: Option<string>)

  datatype MainReading = MainReading(temp: Double)

  datatype Weather = Weather(description: string, icon: string)

  /** The current-conditions payload. */
  datatype WeatherData = WeatherData(name: string, main: MainReading, weather: seq<Weather>)
}
