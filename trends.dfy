/**
 * The trend record that the backend builds from one Reddit post and that the
 * dashboard receives unchanged: the API endpoint wraps the backend's list as
 * `{"trends": ...}` and the dashboard unwraps it again.
 */
module Trends {

  datatype Trend = Trend(
    id: string,
    title: string,
    score: int,
    comments: int,
    url: string,
    created: int,
    subreddit: string
  )
}
